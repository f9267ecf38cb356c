/** The server side of an agent connection: a key and then requests are decoded from the
    byte stream; each request is handed to the shared Dubbo client, whose callback writes
    the answer back. */
module ProviderAgent {
  import opened Wire
  import opened Frames
  import opened Buffers
  import opened Answers
  import opened MeshMessages
  import opened Encoders
  import opened DubboClient

  const DUBBO_CALLBACK := 0   // &_dubbo_callback

  /** All requests that were read, handed on in their order. */
  function AllFetched(s: Sender, channel: nat, fs: seq<Frame>): Sender
    decreases |fs|
  {
    if fs == [] then s
    else if fs[0].Response? then AllFetched(s, channel, fs[1..])
    else AllFetched(JobFetched(s, Job(fs[0].id, fs[0].key, fs[0].data), DUBBO_CALLBACK, channel), channel, fs[1..])
  }

  /** A reader at field `a` with bytes `data` will end up as `d`, and the Dubbo client as `z`. */
  predicate Leads(s: Sender, channel: nat, a: Awaiting, data: seq<byte>, d: Drained, z: Sender) {
    var r := Drive(a, data);
    r.Drained? && d.Drained? && r.state == d.state && r.rest == d.rest && AllFetched(s, channel, r.frames) == z
  }

  lemma LeadsStart(s: Sender, channel: nat, a: Awaiting, data: seq<byte>)
    requires Drive(a, data).Drained?
    ensures Leads(s, channel, a, data, Drive(a, data), AllFetched(s, channel, Drive(a, data).frames))
  {
  }

  lemma LeadsOn(s: Sender, channel: nat, a: Awaiting, data: seq<byte>, d: Drained, z: Sender)
    requires Leads(s, channel, a, data, d, z) && |data| >= Need(a)
    ensures var t := Take(a, data[..Need(a)]);
        && t.Taken?
        && (t.frames == [] ==> Leads(s, channel, t.next, data[Need(a)..], d, z))
        && (|t.frames| == 1 && t.frames[0].Request? ==>
              var f := t.frames[0];
              Leads(JobFetched(s, Job(f.id, f.key, f.data), DUBBO_CALLBACK, channel), channel, t.next,
                  data[Need(a)..], d, z))
  {
    hide JobFetched, Take;
    var t := Take(a, data[..Need(a)]);
    var r := Drive(t.next, data[Need(a)..]);
    assert r.Drained?;
    if t.frames == [] {
      assert [] + r.frames == r.frames;
    } else if |t.frames| == 1 {
      assert (t.frames + r.frames)[0] == t.frames[0] && (t.frames + r.frames)[1..] == r.frames;
    }
  }

  /** The magic number of a connection is there. */
  lemma LeadsMagic(s: Sender, channel: nat, data: seq<byte>, d: Drained, z: Sender)
    requires Leads(s, channel, ActMagic, data, d, z) && |data| >= 2
    ensures data[0] == 0xab && data[1] == 0xcd && Leads(s, channel, SiteLen, data[2..], d, z)
  {
    hide Leads, Drive, AllFetched, JobFetched;
    LeadsOn(s, channel, ActMagic, data, d, z);
  }

  /** A length is there. */
  lemma LeadsLength(s: Sender, channel: nat, a: Awaiting, data: seq<byte>, d: Drained, z: Sender)
    requires LengthNext(a) && Leads(s, channel, a, data, d, z) && |data| >= 4
    ensures var n := ReadInt(data[..4]); n >= 0 && Leads(s, channel, WithLength(a, n), data[4..], d, z)
  {
    hide Leads, Drive, AllFetched, JobFetched, ReadInt;
    LeadsOn(s, channel, a, data, d, z);
  }

  /** A text of the header is there. */
  lemma LeadsText(s: Sender, channel: nat, a: Awaiting, data: seq<byte>, d: Drained, z: Sender)
    requires (a.Site? || a.Call? || a.Types?) && Leads(s, channel, a, data, d, z) && |data| >= Need(a)
    ensures var t := CopyString(data[..Need(a)]);
        var next := if a.Site? then CallLen(t) else if a.Call? then TypesLen(a.site, t)
            else RequestId(Key(a.site, a.call, t));
        Leads(s, channel, next, data[Need(a)..], d, z)
  {
    hide Leads, Drive, AllFetched, JobFetched, CopyString;
    LeadsOn(s, channel, a, data, d, z);
  }

  lemma LeadsId(s: Sender, channel: nat, k: Key, data: seq<byte>, d: Drained, z: Sender)
    requires Leads(s, channel, RequestId(k), data, d, z) && |data| >= 4
    ensures Leads(s, channel, RequestLen(k, ReadInt(data[..4])), data[4..], d, z)
  {
    hide Leads, Drive, AllFetched, JobFetched, ReadInt;
    LeadsOn(s, channel, RequestId(k), data, d, z);
  }

  /** A request is complete: it is fetched. */
  lemma LeadsData(s: Sender, channel: nat, k: Key, id: int, n: nat, data: seq<byte>, d: Drained, z: Sender)
    requires Leads(s, channel, RequestData(k, id, n), data, d, z) && |data| >= n
    ensures Leads(JobFetched(s, Job(id, k, CopyString(data[..n])), DUBBO_CALLBACK, channel), channel, RequestId(k),
        data[n..], d, z)
  {
    hide Leads, Drive, AllFetched, CopyString, JobFetched;
    LeadsOn(s, channel, RequestData(k, id, n), data, d, z);
  }

  lemma LeadsDone(s: Sender, channel: nat, a: Awaiting, data: seq<byte>, d: Drained, z: Sender)
    requires Leads(s, channel, a, data, d, z) && |data| < Need(a)
    ensures a == d.state && data == d.rest && s == z
  {
  }

  class StreamContext {
    const input: Inlet
    const dubbo: DubboClient
    const channel: nat
    var headerState: nat
    var hasHeader: bool
    var bodyState: nat
    var siteLen: int
    var site: seq<byte>
    var callLen: int
    var call: seq<byte>
    var typesLen: int
    var types: seq<byte>
    var actId: int
    var paramLen: int
    var written: seq<byte>   // to the channel

    constructor (input: Inlet, dubbo: DubboClient, channel: nat)
      requires input.Valid()
      ensures this.input == input && this.dubbo == dubbo && this.channel == channel
      ensures Valid() && Await() == ActMagic && written == []
    {
      this.input, this.dubbo, this.channel := input, dubbo, channel;
      headerState, hasHeader, bodyState := 0, false, 0;
      siteLen, site, callLen, call, typesLen, types, actId, paramLen := 0, [], 0, [], 0, [], 0, 0;
      written := [];
    }

    /** The field that the reader waits for. */
    ghost function Await(): Awaiting
      reads `headerState, `hasHeader, `bodyState, `siteLen, `site, `callLen, `call, `typesLen, `types, `actId, `paramLen
    {
      if hasHeader then
        var k := Key(site, call, types);
        if bodyState == 0 then RequestId(k)
        else if bodyState == 1 then RequestLen(k, actId)
        else RequestData(k, actId, Natural(paramLen))
      else if headerState == 0 then ActMagic
      else if headerState == 1 then SiteLen
      else if headerState == 2 then Site(Natural(siteLen))
      else if headerState == 3 then CallLen(site)
      else if headerState == 4 then Frames.Call(site, Natural(callLen))
      else if headerState == 5 then TypesLen(site, call)
      else Types(site, call, Natural(typesLen))
    }

    static function Natural(n: int): nat { if n < 0 then 0 else n }

    ghost predicate Valid()
      reads `headerState, `hasHeader, `bodyState, `siteLen, `callLen, `typesLen, `paramLen
      reads input, input.pool, input.active
    {
      && input.Valid() && bodyState <= 2 && (hasHeader || headerState <= 6)
      && (!hasHeader && headerState == 2 ==> siteLen >= 0) && (!hasHeader && headerState == 4 ==> callLen >= 0)
      && (!hasHeader && headerState == 6 ==> typesLen >= 0) && (hasHeader && bodyState == 2 ==> paramLen >= 0)
      && (!hasHeader ==> bodyState == 0)
    }

    ghost predicate Leading(d: Drained, z: Sender)
      reads this, input, input.pool, input.active, if input.active == null then {} else {input.active.buf}, dubbo
    {
      Valid() && Leads(dubbo.SenderNow(), channel, Await(), input.Unread(), d, z)
    }

    // -------------------------------------------------------------- the header

    method ReadMagic(ghost d: Drained, ghost z: Sender)
      requires Leading(d, z) && !hasHeader && headerState == 0 && input.Available() >= 2
      modifies `headerState, input.active
      ensures Leading(d, z) && !hasHeader && headerState == 1 && input.active == old(input.active)
      ensures input.Available() == old(input.Available()) - 2
    {
      hide Leads, Drive, AllFetched, Take, ReadInt, CopyString, JobFetched;
      LeadsMagic(dubbo.SenderNow(), channel, input.Unread(), d, z);
      var fine := input.TakeMagic(0xab, 0xcd, 2);
      assert fine;
      if fine { headerState := 1; }
    }

    /** The length of the interface, the method or the parameter types. */
    method ReadLength(ghost d: Drained, ghost z: Sender)
      requires Leading(d, z) && !hasHeader && headerState in {1, 3, 5} && input.Available() >= 4
      modifies `headerState, `siteLen, `callLen, `typesLen, input.active
      ensures Leading(d, z) && !hasHeader && headerState == old(headerState) + 1 && input.active == old(input.active)
      ensures input.Available() == old(input.Available()) - 4
    {
      hide Leads, Drive, AllFetched, Take, ReadInt, CopyString, JobFetched;
      LeadsLength(dubbo.SenderNow(), channel, Await(), input.Unread(), d, z);
      var n := input.TakeInt();
      if headerState == 1 { siteLen := n; } else if headerState == 3 { callLen := n; } else { typesLen := n; }
      headerState := headerState + 1;
    }

    method ReadSite(ghost d: Drained, ghost z: Sender)
      requires Leading(d, z) && !hasHeader && headerState == 2 && input.active != null && input.Available() >= siteLen
      modifies `headerState, `site, input.active
      ensures Leading(d, z) && !hasHeader && headerState == 3 && input.active == old(input.active)
      ensures input.Available() == old(input.Available() - siteLen)
    {
      hide Leads, Drive, AllFetched, Take, ReadInt, CopyString, JobFetched;
      LeadsText(dubbo.SenderNow(), channel, Await(), input.Unread(), d, z);
      site := input.TakeString(siteLen);
      headerState := 3;
    }

    method ReadCall(ghost d: Drained, ghost z: Sender)
      requires Leading(d, z) && !hasHeader && headerState == 4 && input.active != null && input.Available() >= callLen
      modifies `headerState, `call, input.active
      ensures Leading(d, z) && !hasHeader && headerState == 5 && input.active == old(input.active)
      ensures input.Available() == old(input.Available() - callLen)
    {
      hide Leads, Drive, AllFetched, Take, ReadInt, CopyString, JobFetched;
      LeadsText(dubbo.SenderNow(), channel, Await(), input.Unread(), d, z);
      call := input.TakeString(callLen);
      headerState := 5;
    }

    /** With the parameter types the header is complete. */
    method ReadTypes(ghost d: Drained, ghost z: Sender)
      requires Leading(d, z) && !hasHeader && headerState == 6 && input.active != null && input.Available() >= typesLen
      modifies `headerState, `hasHeader, `types, input.active
      ensures Leading(d, z) && hasHeader && headerState == 7 && bodyState == 0 && input.active == old(input.active)
      ensures input.Available() == old(input.Available() - typesLen)
    {
      hide Leads, Drive, AllFetched, Take, ReadInt, CopyString, JobFetched;
      LeadsText(dubbo.SenderNow(), channel, Await(), input.Unread(), d, z);
      types := input.TakeString(typesLen);
      headerState := 7;
      hasHeader := true;
    }

    /** The interface, the method or the parameter types, if they are there. */
    method HeaderText(ghost d: Drained, ghost z: Sender) returns (more: bool)
      requires Leading(d, z) && !hasHeader && headerState in {2, 4, 6} && input.active != null
      modifies `headerState, `hasHeader, `site, `call, `types, input.active
      ensures Leading(d, z) && input.active == old(input.active)
      ensures if more then headerState == old(headerState) + 1
          && input.Available() == old(input.Available() - Need(Await()))
                           && (hasHeader <==> headerState == 7)
              else !hasHeader && input.Available() < Need(Await()) && headerState == old(headerState)
                   && input.Available() == old(input.Available())
    {
      hide Leads;
      if headerState == 2 {
        if input.Available() < siteLen { return false; }
        ReadSite(d, z);
      } else if headerState == 4 {
        if input.Available() < callLen { return false; }
        ReadCall(d, z);
      } else {
        if input.Available() < typesLen { return false; }
        ReadTypes(d, z);
      }
      return true;
    }

    /** One field of the header, or none if it is not there. */
    method HeaderField(ghost d: Drained, ghost z: Sender) returns (more: bool)
      requires Leading(d, z) && !hasHeader && input.active != null
      modifies `headerState, `hasHeader, `site, `call, `types, `siteLen, `callLen, `typesLen, input.active
      ensures Leading(d, z) && input.active == old(input.active)
      ensures if more then headerState == old(headerState) + 1
          && input.Available() == old(input.Available() - Need(Await()))
                           && (hasHeader <==> headerState == 7)
              else !hasHeader && input.Available() < Need(Await()) && headerState == old(headerState)
                   && input.Available() == old(input.Available())
    {
      hide Leads;
      if headerState == 0 {
        if input.Available() < 2 { return false; }
        ReadMagic(d, z);
      } else if headerState in {1, 3, 5} {
        if input.Available() < 4 { return false; }
        ReadLength(d, z);
      } else {
        more := HeaderText(d, z);
        return;
      }
      return true;
    }

    // -------------------------------------------------------------- the requests

    method ReadId(ghost d: Drained, ghost z: Sender)
      requires Leading(d, z) && hasHeader && bodyState == 0 && input.Available() >= 4
      modifies `bodyState, `actId, input.active
      ensures Leading(d, z) && bodyState == 1 && input.active == old(input.active)
      ensures input.Available() == old(input.Available()) - 4
    {
      hide Leads, Drive, AllFetched, Take, ReadInt, CopyString, JobFetched;
      LeadsId(dubbo.SenderNow(), channel, Key(site, call, types), input.Unread(), d, z);
      actId := input.TakeInt();
      bodyState := 1;
    }

    method ReadParamLength(ghost d: Drained, ghost z: Sender)
      requires Leading(d, z) && hasHeader && bodyState == 1 && input.Available() >= 4
      modifies `bodyState, `paramLen, input.active
      ensures Leading(d, z) && bodyState == 2 && input.active == old(input.active)
      ensures input.Available() == old(input.Available()) - 4
    {
      hide Leads, Drive, AllFetched, Take, ReadInt, CopyString, JobFetched;
      LeadsLength(dubbo.SenderNow(), channel, Await(), input.Unread(), d, z);
      paramLen := input.TakeInt();
      bodyState := 2;
    }

    /** The request is complete: it goes to the Dubbo client, with this connection as context. */
    method ReadParameter(ghost d: Drained, ghost z: Sender)
      requires Leading(d, z) && hasHeader && bodyState == 2 && input.Available() >= paramLen && input.active != null
      modifies `bodyState, input.active, dubbo`queue, dubbo`written, dubbo`callbacks, dubbo`contexts
      ensures Leading(d, z) && bodyState == 0 && input.active == old(input.active)
      ensures input.Available() == old(input.Available()) - paramLen
    {
      hide Leads, Drive, AllFetched, Take, ReadInt, CopyString, JobFetched;
      LeadsData(dubbo.SenderNow(), channel, Key(site, call, types), actId, paramLen, input.Unread(), d, z);
      var parameter := input.TakeString(paramLen);
      bodyState := 0;
      dubbo.Fetch(Job(actId, Key(site, call, types), parameter), DUBBO_CALLBACK, channel);
    }

    /** The rest of the header, as far as it is there: the cases of the header fall through
        to each other. */
    method ReadHeader(ghost d: Drained, ghost z: Sender) returns (more: bool)
      requires Leading(d, z) && !hasHeader && Need(Await()) > 0 && input.active != null
      modifies `headerState, `hasHeader, `site, `call, `types, `siteLen, `callLen, `typesLen, input.active
      ensures Leading(d, z) && input.active == old(input.active)
      ensures if more then hasHeader && input.Available() < old(input.Available())
          else input.Available() < Need(Await())
    {
      hide Leads;
      var first := true;
      while !hasHeader
        invariant Leading(d, z) && input.active == old(input.active)
        invariant if first then input.Available() == old(input.Available()) && Need(Await()) > 0 && !hasHeader
                  else input.Available() < old(input.Available())
        decreases if hasHeader then 0 else 7 - headerState
      {
        var there := HeaderField(d, z);
        if !there { return false; }
        first := false;
      }
      return true;
    }

    /** One turn of the loop of `on_read`; false when it breaks. */
    method Turn(ghost d: Drained, ghost z: Sender) returns (more: bool)
      requires Leading(d, z) && Need(Await()) > 0 && input.Available() > 0
      modifies `headerState, `hasHeader, `site, `call, `types, `siteLen, `callLen, `typesLen
      modifies `bodyState, `actId, `paramLen
      modifies input.active, dubbo`queue, dubbo`written, dubbo`callbacks, dubbo`contexts
      ensures Leading(d, z) && Need(Await()) > 0 && input.active == old(input.active)
      ensures if more then input.Available() < old(input.Available()) else input.Available() < Need(Await())
    {
      hide Leads;
      if !hasHeader {
        var there := ReadHeader(d, z);
        if !there { return false; }
      }
      more := ReadRequest(d, z);
    }

    method ReadRequest(ghost d: Drained, ghost z: Sender) returns (more: bool)
      requires Leading(d, z) && hasHeader && input.active != null
      modifies `bodyState, `actId, `paramLen
      modifies input.active, dubbo`queue, dubbo`written, dubbo`callbacks, dubbo`contexts
      ensures Leading(d, z) && Need(Await()) > 0 && input.active == old(input.active)
      ensures if more then input.Available() <= old(input.Available() - (if Need(Await()) > 0 then 1 else 0))
              else input.Available() < Need(Await())
    {
      hide Leads;
      if bodyState == 0 {
        if input.Available() < 4 { return false; }
        ReadId(d, z);
      }
      if bodyState == 1 {
        if input.Available() < 4 { return false; }
        ReadParamLength(d, z);
      }
      if input.Available() < paramLen { return false; }
      ReadParameter(d, z);
      return true;
    }

    /** `on_read` after bytes have arrived: every complete request is handed to the Dubbo
        client, in order, whatever was left over from the last time. */
    method OnRead()
      requires Valid() && Need(Await()) > 0 && Drive(Await(), input.Unread()).Drained?
      modifies `headerState, `hasHeader, `site, `call, `types, `siteLen, `callLen, `typesLen
      modifies `bodyState, `actId, `paramLen
      modifies input.active, dubbo`queue, dubbo`written, dubbo`callbacks, dubbo`contexts
      ensures Valid() && Need(Await()) > 0 && input.active == old(input.active)
      ensures var d := old(Drive(Await(), input.Unread()));
          && Await() == d.state && input.Unread() == d.rest
          && dubbo.SenderNow() == AllFetched(old(dubbo.SenderNow()), channel, d.frames)
    {
      ghost var d := Drive(Await(), input.Unread());
      ghost var z := AllFetched(dubbo.SenderNow(), channel, d.frames);
      LeadsStart(dubbo.SenderNow(), channel, Await(), input.Unread());
      hide Leads, Drive, AllFetched, Take;
      var more := true;
      while more && input.Available() > 0
        invariant Leading(d, z) && input.active == old(input.active) && Need(Await()) > 0
        invariant !more ==> input.Available() < Need(Await())
        decreases more, input.Available()
      {
        more := Turn(d, z);
      }
      LeadsDone(dubbo.SenderNow(), channel, Await(), input.Unread(), d, z);
    }

    /** The allocation callback, the arrival of as many of the offered bytes as there is room
        for, and `on_read`: no step is without progress. */
    method Receive(suggested: nat, offered: seq<byte>) returns (n: nat)
      requires Valid() && |input.Unread()| < Need(Await()) <= suggested && suggested >= 3
      requires Drive(Await(), input.Unread() + offered).Drained?
      modifies `headerState, `hasHeader, `site, `call, `types, `siteLen, `callLen, `typesLen
      modifies `bodyState, `actId, `paramLen
      modifies input.Footprint(), dubbo`queue, dubbo`written, dubbo`callbacks, dubbo`contexts
      ensures n <= |offered| && (offered != [] ==> n > 0)
      ensures Valid() && |input.Unread()| < Need(Await())
      ensures input.Recycled() && fresh(input.Footprint() - old(input.Footprint()))
      ensures var d := Drive(old(Await()), old(input.Unread()) + offered[..n]);
          && d.Drained? && Await() == d.state && input.Unread() == d.rest
          && dubbo.SenderNow() == AllFetched(old(dubbo.SenderNow()), channel, d.frames)
    {
      hide Drive, AllFetched, Await, Take, Need, Inlet.Footprint;
      FootprintAside();
      ghost var s, rest := Await(), input.Unread();
      n := input.Fill(suggested, offered);
      DrivenFront(s, rest, offered, n);
      DriveRests(s, rest + offered[..n]);
      OnRead();
    }

    lemma FootprintAside()
      ensures this !in input.Footprint() && dubbo !in input.Footprint()
    {
    }

    /** `_dubbo_callback`: the answer is written to the connection. */
    method DubboCallback(id: int, data: seq<byte>)
      modifies `written
      ensures written == old(written) + EncodeAct(id, data)
    {
      hide EncodeAct;
      var buffer, len := EncodeActMessage(id, data, 0);
      written := written + buffer[..len];
    }
  }
}
