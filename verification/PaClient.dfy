/** The client side of an agent connection: requests wait for the connection and are written
    in order; answers are decoded from the byte stream and given to their callbacks. */
module PaClient {
  import opened Wire
  import opened Frames
  import opened Buffers
  import opened Answers
  import opened Encoders

  /** A request leaves the queue as its encoding. */
  lemma EncodeHead(done: seq<byte>, ms: seq<Message>)
    requires ms != []
    ensures done + EncodeActs(ms) == done + EncodeAct(ms[0].id, ms[0].data) + EncodeActs(ms[1..])
  {
    hide EncodeAct;
  }

  lemma NothingToEncode(done: seq<byte>)
    ensures done + EncodeActs([]) == done
  {
  }

  class PaClient {
    const key: Key
    const input: Inlet
    var connected: bool
    var que: seq<Message>
    var callbacks: map<int, nat>
    var contexts: map<int, nat>
    var readState: nat
    var respId: int
    var dataLen: int
    var written: seq<byte>        // given to uv_write
    ghost var calls: seq<Made>    // callbacks made

    constructor (key: Key, input: Inlet)
      requires input.Valid()
      ensures this.key == key && this.input == input && Valid() && !connected && que == [] && written == []
      ensures BookNow() == Book(map[], map[], []) && Await() == ResponseId(true)
    {
      this.key, this.input := key, input;
      connected, que, callbacks, contexts, written := false, [], map[], map[], [];
      readState, respId, dataLen, calls := 0, 0, 0, [];
    }

    ghost function BookNow(): Book
      reads this
    {
      Book(callbacks, contexts, calls)
    }

    /** The field that the reader waits for. */
    ghost function Await(): Awaiting
      reads this
    {
      if readState == 0 then ResponseId(true)
      else if readState == 1 then ResponseLen(true, respId)
      else ResponseData(true, respId, if dataLen < 0 then 0 else dataLen)
    }

    ghost predicate Valid()
      reads this, input, input.pool, input.active
    {
      input.Valid() && readState <= 2 && (readState == 2 ==> dataLen >= 0)
    }

    // -------------------------------------------------------------- writing

    /** Once connected, everything that waits is written, in order. */
    method HandleQueue()
      modifies `que, `written
      ensures if connected then que == [] && written == old(written) + EncodeActs(old(que))
              else que == old(que) && written == old(written)
    {
      if !connected { return; }
      var bufs: seq<byte> := [];
      ghost var all := EncodeActs(que);
      hide EncodeActs, EncodeAct;
      while que != []
        invariant written == old(written) && bufs + EncodeActs(que) == all
        decreases |que|
      {
        var request := que[0];
        EncodeHead(bufs, que);
        que := que[1..];
        var buffer, len := EncodeActMessage(request.id, request.data, FK);
        bufs := bufs + buffer[..len];
      }
      NothingToEncode(bufs);
      written := written + bufs;
    }

    /** A request is queued and its callback noted; if the connection is up it is written. */
    method Fetch(request: Message, callback: nat, context: nat)
      modifies `que, `written, `callbacks, `contexts
      ensures BookNow() == Registered(old(BookNow()), request.id, callback, context)
      ensures if connected then que == [] && written == old(written) + EncodeActs(old(que) + [request])
              else que == old(que) + [request] && written == old(written)
    {
      que := que + [request];
      callbacks := callbacks[request.id := callback];
      contexts := contexts[request.id := context];
      HandleQueue();
    }

    /** The connection is there: the key is written first. */
    method OnConnection()
      requires !connected
      modifies `que, `written
      ensures que == old(que) && written == old(written) + EncodeKey(key)
    {
      var buffer, len := EncodeActKey(key);
      written := written + buffer[..len];
      HandleQueue();
    }

    /** The key has been written: from now on requests are. */
    method KeyWritten()
      modifies `connected, `que, `written
      ensures connected && que == [] && written == old(written) + EncodeActs(old(que))
    {
      connected := true;
      HandleQueue();
    }

    // -------------------------------------------------------------- reading

    /** The reader will end up as `d`, and the book as `z`. */
    ghost predicate Heading(d: Drained, z: Book)
      reads this, input, input.pool, input.active, if input.active == null then {} else {input.active.buf}
    {
      Valid() && Heads(BookNow(), Await(), input.Unread(), d, z)
    }

    method ReadId(ghost d: Drained, ghost z: Book)
      requires Heading(d, z) && readState == 0 && input.Available() >= 4
      modifies `readState, `respId, input.active
      ensures Heading(d, z) && readState == 1 && input.active == old(input.active)
      ensures input.Available() == old(input.Available()) - 4
    {
      hide Heads, ReadInt;
      HeadsOn(BookNow(), Await(), input.Unread(), d, z);
      respId := input.TakeInt();
      readState := 1;
    }

    method ReadLength(ghost d: Drained, ghost z: Book)
      requires Heading(d, z) && readState == 1 && input.Available() >= 4
      modifies `readState, `dataLen, input.active
      ensures Heading(d, z) && readState == 2 && input.active == old(input.active)
      ensures input.Available() == old(input.Available()) - 4
    {
      hide Heads, ReadInt;
      HeadsOn(BookNow(), Await(), input.Unread(), d, z);
      dataLen := input.TakeInt();
      readState := 2;
    }

    /** The answer is complete: its callback is made and forgotten. */
    method ReadData(ghost d: Drained, ghost z: Book)
      requires Heading(d, z) && readState == 2 && input.Available() >= dataLen && input.active != null
      modifies `readState, `callbacks, `contexts, `calls, input.active
      ensures Heading(d, z) && readState == 0 && input.active == old(input.active)
      ensures input.Available() == old(input.Available()) - dataLen
    {
      hide Heads, CopyString;
      HeadsOn(BookNow(), Await(), input.Unread(), d, z);
      var result := input.TakeString(dataLen);
      ghost var f := Response(respId, result);
      assert Expects(BookNow(), f);
      readState := 0;
      calls := calls + [Made(callbacks[respId], contexts[respId], respId, result)];
      callbacks := callbacks - {respId};
      contexts := contexts - {respId};
    }

    /** One turn of the loop of `_pa_read_cb`; false when it breaks. */
    method Turn(ghost d: Drained, ghost z: Book) returns (more: bool)
      requires Heading(d, z) && Need(Await()) > 0 && input.Available() > 0
      modifies `readState, `respId, `dataLen, `callbacks, `contexts, `calls, input.active
      ensures Heading(d, z) && Need(Await()) > 0 && input.active == old(input.active)
      ensures if more then input.Available() < old(input.Available()) else input.Available() < Need(Await())
    {
      hide Heads, BookNow;
      if readState == 0 {
        if input.Available() < 4 { return false; }
        ReadId(d, z);
      }
      if readState == 1 {
        if input.Available() < 4 { return false; }
        ReadLength(d, z);
      }
      if input.Available() < dataLen { return false; }
      ReadData(d, z);
      return true;
    }

    /** `_pa_read_cb` after bytes have arrived: every complete answer is given to its
        callback, in order; the reader then waits for more with an incomplete field.  (Of
        the stream it is only required that the reader does not get stuck in it, and that
        its answers are expected.) */
    method ReadCallback()
      requires Valid() && Need(Await()) > 0
      requires var d := Drive(Await(), input.Unread()); d.Drained? && AllExpected(BookNow(), d.frames)
      modifies `readState, `respId, `dataLen, `callbacks, `contexts, `calls, input.active
      ensures Valid() && Need(Await()) > 0 && input.active == old(input.active)
      ensures ReadsAs(old(BookNow()), old(Await()), old(input.Unread()), BookNow(), Await(), input.Unread())
    {
      ghost var d := Drive(Await(), input.Unread());
      ghost var z := AllAnswered(BookNow(), d.frames);
      HeadsStart(BookNow(), Await(), input.Unread());
      hide Heads, Drive, AllExpected, AllAnswered;
      var more := true;
      while more && input.Available() > 0
        invariant Heading(d, z) && input.active == old(input.active) && Need(Await()) > 0
        invariant !more ==> input.Available() < Need(Await())
        decreases more, input.Available()
      {
        more := Turn(d, z);
      }
      HeadsDone(BookNow(), Await(), input.Unread(), d, z);
    }

    lemma FootprintAside()
      ensures this !in input.Footprint()
    {
    }

    /** The allocation callback, the arrival of as many of the offered bytes as there is room
        for, and the read callback.  If the field waited for fits the suggested size there
        always is room; and the bytes taken mean what they mean to an unbounded reader. */
    method Receive(suggested: nat, offered: seq<byte>) returns (n: nat)
      requires Valid() && |input.Unread()| < Need(Await()) <= suggested && suggested >= 3
      requires var d := Drive(Await(), input.Unread() + offered); d.Drained? && AllExpected(BookNow(), d.frames)
      modifies `readState, `respId, `dataLen, `callbacks, `contexts, `calls, input.Footprint()
      ensures n <= |offered| && (offered != [] ==> n > 0)
      ensures Valid() && |input.Unread()| < Need(Await())
      ensures input.Recycled() && fresh(input.Footprint() - old(input.Footprint()))
      ensures ReadsAs(old(BookNow()), old(Await()), old(input.Unread()) + offered[..n], BookNow(), Await(),
          input.Unread())
    {
      hide Drive, AllExpected, AllAnswered, ReadInt, Inlet.Footprint;
      FootprintAside();
      ghost var s, b, rest := Await(), BookNow(), input.Unread();
      n := input.Fill(suggested, offered);
      ReadableFront(b, s, rest, offered, n);
      DriveRests(s, rest + offered[..n]);
      ReadCallback();
    }
  }
}
