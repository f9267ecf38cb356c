/** The Java reader of agent answers: one growing buffer with an offset, and a loop that
    reads its three fields. */
module FrameParser {
  import opened Wire
  import opened Frames

  /** What the parser is called with. */
  datatype Given = Null | Bytes(bytes: seq<byte>)

  function BytesOf(g: Given): seq<byte> { if g.Null? then [] else g.bytes }

  class FrameParser {
    var buffer: seq<byte>
    var started: bool              // _buffer != null
    var offset: nat
    var length: int
    var apid: int
    var state: nat
    ghost var handled: seq<Frame>  // given to the client's handler

    constructor ()
      ensures Valid() && !Broken() && !started && Unread() == [] && handled == [] && Await() == ResponseId(false)
    {
      buffer, started, offset, length, apid, state, handled := [], false, 0, 0, 0, 0, [];
    }

    ghost predicate Valid()
      reads this
    {
      offset <= |buffer| && state <= 2 && (!started ==> buffer == [] && state == 0)
    }

    /** A negative length has been read. */
    ghost predicate Broken()
      reads this
    {
      state == 2 && length < 0
    }

    ghost function Unread(): seq<byte>
      requires offset <= |buffer|
      reads this
    {
      buffer[offset..]
    }

    ghost function Await(): Awaiting
      reads this
    {
      if state == 0 then ResponseId(false)
      else if state == 1 then ResponseLen(false, apid)
      else ResponseData(false, apid, if length < 0 then 0 else length)
    }

    /** A buffer that has been used up is replaced, others grow; nothing is added for null. */
    method Append(given: Given)
      requires Valid()
      modifies `buffer, `started, `offset
      ensures Valid() && Unread() == old(Unread()) + BytesOf(given) && started == (old(started) || given.Bytes?)
    {
      match given {
        case Null =>
          assert Unread() + [] == Unread();
        case Bytes(newBuffer) =>
          if !started {
            buffer, started := newBuffer, true;
          } else if offset >= |buffer| {
            buffer, offset := newBuffer, 0;
          } else {
            buffer := buffer + newBuffer;
          }
      }
    }

    /** The frames handled so far and those to come are `all`, and the parser will end up as `d`. */
    ghost predicate Under(before: seq<Frame>, d: Drained, all: seq<Frame>)
      reads this
    {
      && Valid() && started && before <= handled
      && if Broken() then d.Stuck? && handled[|before|..] == all
         else OnTheWay(handled[|before|..], Await(), Unread(), d, all)
    }

    method BytesRemaining() returns (n: int)
      requires offset <= |buffer|
      ensures n == |Unread()|
    {
      n := if |buffer| - offset < 0 then 0 else |buffer| - offset;
    }

    method ReadId(ghost before: seq<Frame>, ghost d: Drained, ghost all: seq<Frame>)
      requires Under(before, d, all) && state == 0 && |Unread()| >= 4
      modifies `apid, `offset, `state
      ensures Under(before, d, all) && state == 1 && |Unread()| == old(|Unread()|) - 4
    {
      hide OnTheWay, ReadInt;
      NextField(handled[|before|..], Await(), Unread(), d, all);
      apid := ReadInt(buffer[offset..offset + 4]);
      assert Unread()[..4] == buffer[offset..offset + 4] && Unread()[4..] == buffer[offset + 4..];
      offset := offset + 4;
      state := 1;
    }

    method ReadLength(ghost before: seq<Frame>, ghost d: Drained, ghost all: seq<Frame>)
      requires Under(before, d, all) && state == 1 && |Unread()| >= 4
      modifies `length, `offset, `state
      ensures Under(before, d, all) && state == 2 && |Unread()| == old(|Unread()|) - 4
    {
      hide OnTheWay, ReadInt;
      NextField(handled[|before|..], Await(), Unread(), d, all);
      length := ReadInt(buffer[offset..offset + 4]);
      assert Unread()[..4] == buffer[offset..offset + 4] && Unread()[4..] == buffer[offset + 4..];
      offset := offset + 4;
      state := 2;
    }

    method ReadResult(ghost before: seq<Frame>, ghost d: Drained, ghost all: seq<Frame>)
      requires Under(before, d, all) && state == 2 && |Unread()| >= length >= 0
      modifies `offset, `state, `handled
      ensures Under(before, d, all) && state == 0 && |Unread()| == old(|Unread()|) - length
    {
      hide OnTheWay;
      NextField(handled[|before|..], Await(), Unread(), d, all);
      var result := buffer[offset..offset + length];
      assert Unread()[..length] == result && Unread()[length..] == buffer[offset + length..];
      ghost var f := Response(apid, result);
      assert (handled + [f])[|before|..] == handled[|before|..] + [f];
      offset := offset + length;
      state := 0;
      handled := handled + [f];
    }

    /** One turn of the endless loop; `more` is false when it breaks or throws. */
    method Turn(ghost before: seq<Frame>, ghost d: Drained, ghost all: seq<Frame>) returns (more: bool, thrown: bool)
      requires Under(before, d, all) && (Broken() || Need(Await()) > 0)
      modifies `apid, `length, `offset, `state, `handled
      ensures Under(before, d, all) && (Broken() || Need(Await()) > 0) && (thrown ==> !more && Broken())
      ensures old(Broken()) ==> thrown && Broken() && handled == old(handled)
      ensures if more then !Broken() && |Unread()| < old(|Unread()|)
              else thrown || (!Broken() && |Unread()| < Need(Await()))
    {
      hide OnTheWay;
      thrown := false;
      var remainingBytes := BytesRemaining();
      if state == 0 && remainingBytes >= 4 {
        ReadId(before, d, all);
        remainingBytes := remainingBytes - 4;
      } else if state == 0 && remainingBytes < 4 {
        return false, false;
      }
      if state == 1 && remainingBytes >= 4 {
        ReadLength(before, d, all);
        remainingBytes := remainingBytes - 4;
      } else if state == 1 && remainingBytes < 4 {
        return false, false;
      }
      if state == 2 && remainingBytes >= length {
        if length < 0 { return false, true; }   // thrown by getBytes
        ReadResult(before, d, all);
      } else if state == 2 && remainingBytes < length {
        return false, false;
      }
      more := true;
    }

    /** The endless loop. */
    method Loop(ghost before: seq<Frame>, ghost d: Drained, ghost all: seq<Frame>) returns (thrown: bool)
      requires Under(before, d, all) && (Broken() || Need(Await()) > 0)
      modifies `apid, `length, `offset, `state, `handled
      ensures Under(before, d, all) && (thrown <==> Broken()) && (thrown || |Unread()| < Need(Await()))
      ensures old(Broken()) ==> thrown && handled == old(handled)
    {
      hide OnTheWay, Drive, FramesBefore, Need, Await;
      ghost var was := handled;
      var more := true;
      thrown := false;
      while more
        invariant Under(before, d, all) && (Broken() || Need(Await()) > 0) && (thrown ==> !more && Broken())
        invariant old(Broken()) ==> Broken() && handled == was && (!more ==> thrown)
        invariant !more ==> thrown || (!Broken() && |Unread()| < Need(Await()))
        decreases more, |Unread()|
      {
        more, thrown := Turn(before, d, all);
      }
    }

    /** The parser has read `x`, from field `s` on. */
    ghost predicate HasRead(s: Awaiting, x: seq<byte>, before: seq<Frame>, thrown: bool)
      reads this
    {
      var d := Drive(s, x);
      && Valid() && (thrown <==> d.Stuck?) && (thrown <==> Broken()) && handled == before + FramesBefore(s, x)
      && (!thrown ==> Await() == d.state && Unread() == d.rest && Need(Await()) > 0)
    }

    lemma Ended(s: Awaiting, x: seq<byte>, before: seq<Frame>, thrown: bool)
      requires Under(before, Drive(s, x), FramesBefore(s, x))
      requires (thrown <==> Broken()) && (thrown || |Unread()| < Need(Await()))
      ensures HasRead(s, x, before, thrown)
    {
      hide OnTheWay, Drive, FramesBefore, Need;
      if !thrown { EndOfTheWay(handled[|before|..], Await(), Unread(), Drive(s, x), FramesBefore(s, x)); }
      assert handled == before + handled[|before|..];
    }

    method HandleIntact(given: Given) returns (thrown: bool)
      requires Valid() && !Broken() && Need(Await()) > 0 && (started || given.Bytes?)
      modifies this
      ensures HasRead(old(Await()), old(Unread()) + BytesOf(given), old(handled), thrown)
    {
      hide OnTheWay, Drive, FramesBefore, Need, HasRead;
      ghost var s, x, before := Await(), Unread() + BytesOf(given), handled;
      StartOfTheWay(s, x);
      Append(given);
      assert handled[|before|..] == [];
      thrown := Loop(before, Drive(s, x), FramesBefore(s, x));
      Ended(s, x, before, thrown);
    }

    /** `handle`: whatever the fragments, exactly the frames of the stream are handled, in
        order, also those without any data.  At a negative length it throws, after the frames
        in front of it, and from then on always; a null buffer is like an empty one, but if it
        is the first the loop throws. */
    method Handle(given: Given) returns (thrown: bool)
      requires Valid() && (Broken() || Need(Await()) > 0)
      modifies this
      ensures Valid() && (Broken() || Need(Await()) > 0)
      ensures given.Null? && !old(started) ==> thrown && !started && handled == old(handled)
      ensures old(Broken()) ==> thrown && Broken() && handled == old(handled)
      ensures !old(Broken()) && (given.Bytes? || old(started)) ==>
          HasRead(old(Await()), old(Unread()) + BytesOf(given), old(handled), thrown)
    {
      hide OnTheWay, Drive, FramesBefore, Need;
      if !started && given.Null? { return true; }
      if state == 2 && length < 0 {
        Append(given);
        assert handled[|handled|..] == [];
        thrown := Loop(handled, Stuck, []);
      } else {
        thrown := HandleIntact(given);
      }
    }
  }

  lemma NextField(done: seq<Frame>, s: Awaiting, data: seq<byte>, d: Drained, all: seq<Frame>)
    requires OnTheWay(done, s, data, d, all) && |data| >= Need(s)
    ensures var t := Take(s, data[..Need(s)]);
        && (t.Taken? ==> OnTheWay(done + t.frames, t.next, data[Need(s)..], d, all))
        && (t.Taken? && t.frames == [] ==> done + t.frames == done)
        && (t.Bad? ==> d.Stuck? && all == done)
  {
    hide OnTheWay, Take;
    StepOnTheWay(done, s, data, d, all);
  }
}
