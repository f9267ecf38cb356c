/** Integers and C strings on the wire. */
module Wire {

  type byte = x: int | 0 <= x < 256

  const TWO31 := 0x8000_0000
  const TWO32 := 0x1_0000_0000
  const TWO63 := 0x8000_0000_0000_0000
  const TWO64 := 0x1_0000_0000_0000_0000

  predicate IsInt(v: int) { -TWO31 <= v < TWO31 }
  predicate IsLong(v: int) { -TWO63 <= v < TWO63 }

  /** The number with these four bytes, the most significant first. */
  function Word(a: int, b: int, c: int, d: int): int { ((a * 256 + b) * 256 + c) * 256 + d }

  /** A 32-bit pattern as an int. */
  function AsInt(w: int): int { if w < TWO31 then w else w - TWO32 }

  function ReadInt(b: seq<byte>): (v: int)
    requires |b| == 4
    ensures IsInt(v)
  {
    AsInt(Word(b[0], b[1], b[2], b[3]))
  }

  /** `v >> 8 * k`, rounded down also for a negative `v`. */
  function Shift(v: int, k: nat): int
    decreases k
  {
    if k == 0 then v else Shift(v / 256, k - 1)
  }

  /** `(v >> 8 * k) & 0xff` */
  function ByteAt(v: int, k: nat): byte { Shift(v, k) % 256 }

  function IntBytes(v: int): (b: seq<byte>)
    ensures |b| == 4
  {
    [ByteAt(v, 3), ByteAt(v, 2), ByteAt(v, 1), ByteAt(v, 0)]
  }

  function LongBytes(v: int): (b: seq<byte>)
    ensures |b| == 8
  {
    [ByteAt(v, 7), ByteAt(v, 6), ByteAt(v, 5), ByteAt(v, 4), ByteAt(v, 3), ByteAt(v, 2), ByteAt(v, 1), ByteAt(v, 0)]
  }

  /** The sum of two halves as a long long; only below its range can it wrap. */
  function AsLong(s: int): int { if s < -TWO63 then s + TWO64 else s }

  /** The low half is added as a signed number. */
  function ReadLong(b: seq<byte>): (v: int)
    requires |b| == 8
    ensures IsLong(v)
  {
    AsLong(ReadInt(b[..4]) * TWO32 + ReadInt(b[4..]))
  }

  lemma {:induction false} ShiftMore(v: int, a: nat, k: nat)
    ensures Shift(Shift(v, a), k) == Shift(v, a + k)
    decreases a
  {
    if a > 0 { ShiftMore(v / 256, a - 1, k); }
  }

  lemma ShiftStep(v: int, k: nat)
    ensures Shift(v, k) == Shift(v, k + 1) * 256 + ByteAt(v, k)
  {
    ShiftMore(v, k, 1);
  }

  /** The bytes of a number and what is above them. */
  lemma IntSum(v: int)
    ensures v == Shift(v, 4) * TWO32 + Word(ByteAt(v, 3), ByteAt(v, 2), ByteAt(v, 1), ByteAt(v, 0))
  {
    ShiftStep(v, 0);
    ShiftStep(v, 1);
    ShiftStep(v, 2);
    ShiftStep(v, 3);
    assert Shift(v, 0) == v;
    hide Shift, ByteAt;
  }

  /** An int comes back as it was, and nothing else does. */
  lemma IntRoundTrip(v: int)
    ensures ReadInt(IntBytes(v)) == v <==> IsInt(v)
  {
    IntSum(v);
    hide Shift, ByteAt;
  }

  lemma LongHalves(v: int)
    ensures LongBytes(v)[..4] == IntBytes(Shift(v, 4)) && LongBytes(v)[4..] == IntBytes(v)
  {
    ShiftMore(v, 4, 0);
    ShiftMore(v, 4, 1);
    ShiftMore(v, 4, 2);
    ShiftMore(v, 4, 3);
    hide Shift;
  }

  /** Four bytes of a big-endian number, weighed. */
  function Weighed(a: int, b: int, c: int, d: int): int { a * 0x100_0000 + b * 0x1_0000 + c * 0x100 + d }

  /** The bytes of an int are those of its two's complement, the most significant first. */
  lemma IntBigEndian(v: int)
    requires IsInt(v)
    ensures var b := IntBytes(v); Weighed(b[0], b[1], b[2], b[3]) == if v < 0 then v + 0x1_0000_0000 else v
  {
    IntSum(v);
    hide Shift, ByteAt;
  }

  /** The same for a long long. */
  lemma LongBigEndian(v: int)
    requires IsLong(v)
    ensures var b := LongBytes(v);
        Weighed(b[0], b[1], b[2], b[3]) * 0x1_0000_0000 + Weighed(b[4], b[5], b[6], b[7])
        == if v < 0 then v + 0x1_0000_0000_0000_0000 else v
  {
    hide Shift, ByteAt, Word, Weighed, LongBytes, IntBytes;
    var hi, w := Shift(v, 4), Word(ByteAt(v, 3), ByteAt(v, 2), ByteAt(v, 1), ByteAt(v, 0));
    IntSum(v);
    WordSmall(ByteAt(v, 3), ByteAt(v, 2), ByteAt(v, 1), ByteAt(v, 0));
    LongHalves(v);
    IntBigEndian(hi);
    LowWord(v);
    var b := LongBytes(v);
    assert forall i | 0 <= i < 4 :: b[i] == IntBytes(hi)[i] && b[4 + i] == IntBytes(v)[i];
  }

  lemma HighZero(v: int)
    requires 0 <= v < TWO31
    ensures IntBytes(Shift(v, 4)) == [0, 0, 0, 0]
  {
    IntSum(v);
    WordSmall(ByteAt(v, 3), ByteAt(v, 2), ByteAt(v, 1), ByteAt(v, 0));
    assert Shift(v, 4) == 0 by { hide Shift, ByteAt, Word; }
  }

  lemma LowWord(v: int)
    ensures var b := IntBytes(v);
        Weighed(b[0], b[1], b[2], b[3]) == Word(ByteAt(v, 3), ByteAt(v, 2), ByteAt(v, 1), ByteAt(v, 0))
  {
    hide Shift, ByteAt;
  }

  /** A long long comes back as it was exactly when bit 31 of it is clear. */
  lemma LongRoundTrip(v: int)
    requires IsLong(v)
    ensures ReadLong(LongBytes(v)) == v <==> ByteAt(v, 3) < 128
    ensures ReadLong(LongBytes(v)) == AsLong(if ByteAt(v, 3) < 128 then v else v - TWO32)
  {
    var hi, w := Shift(v, 4), Word(ByteAt(v, 3), ByteAt(v, 2), ByteAt(v, 1), ByteAt(v, 0));
    IntSum(v);
    LongHalves(v);
    IntRoundTrip(hi);
    WordSmall(ByteAt(v, 3), ByteAt(v, 2), ByteAt(v, 1), ByteAt(v, 0));
    assert ReadInt(IntBytes(v)) == AsInt(w);
    hide Shift, ByteAt, Word, LongBytes, IntBytes, ReadInt;
  }

  /** The least id that does not come back: 2 to the power of 31 is read as its negative. */
  lemma LongExample()
    ensures ReadLong(LongBytes(TWO31)) == -TWO31
  {
    assert Shift(TWO31, 1) == 0x80_0000 && Shift(TWO31, 2) == 0x8000 && Shift(TWO31, 3) == 0x80;
    assert Shift(TWO31, 4) == 0;
    assert LongBytes(TWO31)[..4] == IntBytes(0) by { LongHalves(TWO31); }
    assert LongBytes(TWO31)[4..] == IntBytes(TWO31) by { LongHalves(TWO31); }
    IntRoundTrip(0);
    assert IntBytes(TWO31) == [128, 0, 0, 0];
  }

  lemma WordSmall(a: byte, b: byte, c: byte, d: byte)
    ensures 0 <= Word(a, b, c, d) < TWO32 && (Word(a, b, c, d) < TWO31 <==> a < 128)
  {
  }

  // ---------------------------------------------------------------- strncpy

  /** What `strncpy` makes of a buffer: behind the first NUL everything is NUL. */
  function CopyString(s: seq<byte>): (t: seq<byte>)
    ensures |t| == |s|
  {
    if s == [] then [] else if s[0] == 0 then Zeros(|s|) else [s[0]] + CopyString(s[1..])
  }

  function Zeros(n: nat): (t: seq<byte>)
    ensures |t| == n && forall i | 0 <= i < n :: t[i] == 0
  {
    seq(n, _ => 0)
  }

  /** NULs only at the end. */
  predicate IsCString(s: seq<byte>) {
    forall i, j | 0 <= i < j < |s| && s[i] == 0 :: s[j] == 0
  }

  /** Copying is exact for these and for no others. */
  lemma {:induction false} CopyExact(s: seq<byte>)
    ensures CopyString(s) == s <==> IsCString(s)
    ensures IsCString(CopyString(s))
  {
    if s != [] {
      CopyExact(s[1..]);
      if s[0] != 0 {
        assert CopyString(s) == [s[0]] + CopyString(s[1..]) && s == [s[0]] + s[1..];
        TailCString(s);
        TailCString(CopyString(s));
        assert CopyString(s)[1..] == CopyString(s[1..]);
      } else if IsCString(s) {
        assert s == Zeros(|s|);
      }
    }
  }

  /** What follows a NUL is lost. */
  lemma CopyExample()
    ensures CopyString([1, 0, 2]) == [1, 0, 0]
  {
    assert [1, 0, 2][1..] == [0, 2];
    assert CopyString([0, 2]) == Zeros(2) == [0, 0];
  }

  lemma TailCString(s: seq<byte>)
    requires s != [] && s[0] != 0
    ensures IsCString(s) <==> IsCString(s[1..])
  {
    var t := s[1..];
    if IsCString(t) {
      forall i, j | 0 <= i < j < |s| && s[i] == 0 ensures s[j] == 0 {
        assert t[i - 1] == s[i] && t[j - 1] == s[j];
      }
    }
  }

  lemma CopyTwice(s: seq<byte>)
    ensures CopyString(CopyString(s)) == CopyString(s)
  {
    CopyExact(s);
    CopyExact(CopyString(s));
  }

  // ---------------------------------------------------------------- the C functions

  method Bytes2Int(buf: array<byte>, at: nat) returns (v: int)
    requires at + 4 <= buf.Length
    ensures v == ReadInt(buf[at..at + 4])
  {
    hide AsInt, Word;
    v := AsInt(Word(buf[at], buf[at + 1], buf[at + 2], buf[at + 3]));
  }

  method Bytes2Long(buf: array<byte>, at: nat) returns (v: int)
    requires at + 8 <= buf.Length
    ensures v == ReadLong(buf[at..at + 8])
  {
    hide AsLong, ReadInt;
    var hi := Bytes2Int(buf, at);
    var lo := Bytes2Int(buf, at + 4);
    assert buf[at..at + 8][..4] == buf[at..at + 4] && buf[at..at + 8][4..] == buf[at + 4..at + 8];
    v := AsLong(hi * TWO32 + lo);
  }

  /** Only the `n` elements at `at` have changed, to `x`. */
  twostate predicate Patched(buf: array<byte>, at: nat, x: seq<byte>)
    requires at + |x| <= buf.Length
    reads buf
  {
    buf[..at] == old(buf[..at]) && buf[at..at + |x|] == x && buf[at + |x|..] == old(buf[at + |x|..])
  }

  method WriteInt(buf: array<byte>, at: nat, v: int)
    requires at + 4 <= buf.Length
    modifies buf
    ensures Patched(buf, at, IntBytes(v))
  {
    hide ByteAt;
    buf[at], buf[at + 1], buf[at + 2], buf[at + 3] := ByteAt(v, 3), ByteAt(v, 2), ByteAt(v, 1), ByteAt(v, 0);
  }

  method WriteLong(buf: array<byte>, at: nat, v: int)
    requires at + 8 <= buf.Length
    modifies buf
    ensures Patched(buf, at, LongBytes(v))
  {
    hide ByteAt;
    buf[at], buf[at + 1], buf[at + 2], buf[at + 3] := ByteAt(v, 7), ByteAt(v, 6), ByteAt(v, 5), ByteAt(v, 4);
    buf[at + 4], buf[at + 5], buf[at + 6], buf[at + 7] := ByteAt(v, 3), ByteAt(v, 2), ByteAt(v, 1), ByteAt(v, 0);
  }

  /** strncpy(buf + at, s, |s|) */
  method StringCopy(buf: array<byte>, at: nat, s: seq<byte>)
    requires at + |s| <= buf.Length
    modifies buf
    ensures Patched(buf, at, CopyString(s))
  {
    hide CopyString;
    var i := 0;
    while i < |s| && s[i] != 0
      invariant i <= |s| && forall k | 0 <= k < i :: s[k] != 0
      invariant buf[..at] == old(buf[..at]) && buf[at + i..] == old(buf[at + i..])
      invariant buf[at..at + i] == s[..i]
    {
      buf[at + i] := s[i];
      i := i + 1;
    }
    ghost var n := i;
    CopyFront(s, n);
    while i < |s|
      invariant n <= i <= |s|
      invariant buf[..at] == old(buf[..at]) && buf[at + i..] == old(buf[at + i..])
      invariant buf[at..at + i] == s[..n] + Zeros(i - n)
    {
      buf[at + i] := 0;
      i := i + 1;
    }
  }

  lemma {:induction false} CopyFront(s: seq<byte>, n: nat)
    requires n <= |s| && (forall k | 0 <= k < n :: s[k] != 0) && (n < |s| ==> s[n] == 0)
    ensures CopyString(s) == s[..n] + Zeros(|s| - n)
    decreases n
  {
    if n > 0 {
      CopyFront(s[1..], n - 1);
      assert s[..n] == [s[0]] + s[1..][..n - 1];
    } else if s == [] {
      assert s[..0] + Zeros(0) == [];
    } else {
      assert s[..0] + Zeros(|s|) == Zeros(|s|);
    }
  }
}
