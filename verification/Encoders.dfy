/** The encoders: they fill a buffer from its front, field by field. */
module Encoders {
  import opened Wire
  import opened Frames
  import opened DubboBody
  import opened MeshMessages

  lemma Joined(buf: array<byte>, at: nat, n: nat)
    requires at + n <= buf.Length
    ensures buf[..at + n] == buf[..at] + buf[at..at + n]
  {
  }

  method PutInt(buf: array<byte>, pos: nat, v: int) returns (next: nat)
    requires pos + 4 <= buf.Length
    modifies buf
    ensures next == pos + 4 && buf[..next] == old(buf[..pos]) + IntBytes(v)
  {
    WriteInt(buf, pos, v);
    next := pos + 4;
    Joined(buf, pos, 4);
  }

  method PutLong(buf: array<byte>, pos: nat, v: int) returns (next: nat)
    requires pos + 8 <= buf.Length
    modifies buf
    ensures next == pos + 8 && buf[..next] == old(buf[..pos]) + LongBytes(v)
  {
    WriteLong(buf, pos, v);
    next := pos + 8;
    Joined(buf, pos, 8);
  }

  method PutString(buf: array<byte>, pos: nat, s: seq<byte>) returns (next: nat)
    requires pos + |s| <= buf.Length
    modifies buf
    ensures next == pos + |s| && buf[..next] == old(buf[..pos]) + CopyString(s)
  {
    StringCopy(buf, pos, s);
    next := pos + |s|;
    Joined(buf, pos, |s|);
  }

  method PutByte(buf: array<byte>, pos: nat, b: byte) returns (next: nat)
    requires pos < buf.Length
    modifies buf
    ensures next == pos + 1 && buf[..next] == old(buf[..pos]) + [b]
  {
    buf[pos] := b;
    next := pos + 1;
  }

  /** The copying loop of the Dubbo encoder. */
  method PutBytes(buf: array<byte>, pos: nat, s: seq<byte>) returns (next: nat)
    requires pos + |s| <= buf.Length
    modifies buf
    ensures next == pos + |s| && buf[..next] == old(buf[..pos]) + s
  {
    next := pos;
    for i := 0 to |s|
      invariant next == pos + i
      invariant buf[..next] == old(buf[..pos]) + s[..i]
    {
      next := PutByte(buf, next, s[i]);
    }
  }

  // ---------------------------------------------------------------- ACT

  const FK := 1   // one spare byte behind every block of the consumer agent

  /** `_pa_encode_act_key` */
  method EncodeActKey(key: Key) returns (buffer: array<byte>, len: nat)
    ensures fresh(buffer) && len <= buffer.Length && buffer[..len] == EncodeKey(key)
  {
    hide CopyString, IntBytes;
    len := 4 + |key.site| + 4 + |key.call| + 4 + |key.types| + 2;
    buffer := new byte[len + FK](_ => 0);
    buffer[0], buffer[1] := 0xab, 0xcd;
    var pos := 2;
    assert buffer[..pos] == ACT_MAGIC;
    pos := PutSized(buffer, pos, key.site);
    pos := PutSized(buffer, pos, key.call);
    pos := PutSized(buffer, pos, key.types);
  }

  method PutSized(buf: array<byte>, pos: nat, s: seq<byte>) returns (next: nat)
    requires pos + 4 + |s| <= buf.Length
    modifies buf
    ensures next == pos + 4 + |s| && buf[..next] == old(buf[..pos]) + Sized(s)
  {
    next := PutInt(buf, pos, |s|);
    next := PutString(buf, next, s);
  }

  /** `_pa_act_request_encode` with a spare byte, `encode_act_response` without. */
  method EncodeActMessage(id: int, data: seq<byte>, spare: nat) returns (buffer: array<byte>, len: nat)
    ensures fresh(buffer) && len <= buffer.Length && buffer[..len] == EncodeAct(id, data)
  {
    hide CopyString, IntBytes;
    len := 4 + 4 + |data|;
    buffer := new byte[len + spare](_ => 0);
    var pos := PutInt(buffer, 0, id);
    pos := PutSized(buffer, pos, data);
    assert buffer[..len] == [] + IntBytes(id) + Sized(data);
  }

  // ---------------------------------------------------------------- Dubbo

  const QUOTE: byte := 34
  const NEWLINE: byte := 10
  const F_LEN := 69   // the length of Path

  method PutQuoted(buf: array<byte>, pos: nat, s: seq<byte>) returns (next: nat)
    requires pos + |s| + 3 <= buf.Length
    modifies buf
    ensures next == pos + |s| + 3 && buf[..next] == old(buf[..pos]) + Quoted(s)
  {
    next := PutByte(buf, pos, QUOTE);
    next := PutBytes(buf, next, s);
    next := PutByte(buf, next, QUOTE);
    next := PutByte(buf, next, NEWLINE);
  }

  /** F_LEN is the length of the attachments. */
  lemma PathIsWhole()
    ensures |PATH_TEXT| == F_LEN == |Path()|
  {
  }

  /** The length computed in advance is that of the message. */
  lemma BodyLength(k: Key, data: seq<byte>)
    ensures |Body(k, data)| == |VERSION| + 1 + |k.site| + 1 + 5 + |k.types| + 1 + |data| + 1 + F_LEN + 10 + |k.call| + 1
  {
    hide Path;
    PathIsWhole();
  }

  method PutHead(buf: array<byte>, id: int, n: nat) returns (next: nat)
    requires buf.Length >= 16
    modifies buf
    ensures next == 16 && buf[..16] == DUBBO_MAGIC + FLAGS + LongBytes(id) + IntBytes(n)
  {
    hide IntBytes, LongBytes;
    buf[0], buf[1], buf[2], buf[3] := 0xda, 0xbb, 0xc6, 0x00;
    assert buf[..4] == DUBBO_MAGIC + FLAGS;
    next := PutLong(buf, 4, id);
    next := PutInt(buf, next, n);
  }

  /** The `total_len` of `dubbo_request_encode`. */
  function TotalLength(k: Key, data: seq<byte>): nat {
    4 + 8 + 4 + (|VERSION| + 1) + (|k.site| + 1) + 5 + (|k.types| + 1) + (|data| + 1) + F_LEN + 10 + (|k.call| + 1)
  }

  /** It is the length of the message. */
  lemma TotalIsExact(k: Key, data: seq<byte>)
    ensures TotalLength(k, data) == 16 + |Body(k, data)|
  {
    BodyLength(k, data);
    hide Body;
  }

  /** `dubbo_request_encode` */
  method EncodeDubboRequest(id: int, key: Key, data: seq<byte>) returns (buffer: array<byte>, len: nat)
    ensures fresh(buffer) && len <= buffer.Length && buffer[..len] == EncodeDubbo(FLAGS, id, Body(key, data))
    ensures len >= 16 && buffer[..4] == [0xda, 0xbb, 0xc6, 0x00]
  {
    hide Body, IntBytes, LongBytes, TotalLength;
    len := TotalLength(key, data);
    TotalIsExact(key, data);
    buffer := new byte[len](_ => 0);
    var pos := PutHead(buffer, id, len - 16);
    pos := PutBody(buffer, pos, key, data);
    assert pos == len;
  }

  method PutBody(buf: array<byte>, pos: nat, key: Key, data: seq<byte>) returns (next: nat)
    requires pos + |Body(key, data)| <= buf.Length
    modifies buf
    ensures next == pos + |Body(key, data)| && buf[..next] == old(buf[..pos]) + Body(key, data)
  {
    BodyLength(key, data);
    hide Quoted, Body;
    ghost var base, part := buf[..pos], Quoted(VERSION);
    next := PutQuoted(buf, pos, VERSION);
    next := PutQuoted(buf, next, key.site);
    Regroup(base, part, Quoted(key.site));
    part := part + Quoted(key.site);
    next := PutBytes(buf, next, NULL_LINE);
    Regroup(base, part, NULL_LINE);
    part := part + NULL_LINE;
    next := PutQuoted(buf, next, key.call);
    Regroup(base, part, Quoted(key.call));
    part := part + Quoted(key.call);
    next := PutQuoted(buf, next, key.types);
    Regroup(base, part, Quoted(key.types));
    part := part + Quoted(key.types);
    next := PutQuoted(buf, next, data);
    Regroup(base, part, Quoted(data));
    part := part + Quoted(data);
    next := PutBytes(buf, next, Path());
    Regroup(base, part, Path());
    BodyParts(key, data);
  }

  lemma Regroup(a: seq<byte>, b: seq<byte>, c: seq<byte>)
    ensures a + b + c == a + (b + c)
  {
  }

  lemma BodyParts(k: Key, data: seq<byte>)
    ensures Body(k, data) ==
            Quoted(VERSION) + Quoted(k.site) + NULL_LINE + Quoted(k.call) + Quoted(k.types) + Quoted(data) + Path()
  {
  }
}
