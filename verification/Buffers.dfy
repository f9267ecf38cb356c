/** Byte buffers with a read and a write index, the pool they are recycled in, and the
    allocation callback that all three clients install: it swaps a full buffer for a pooled
    or new one and moves the unread bytes to its front. */
module Buffers {
  import opened Wire

  class ByteBuf {
    const buf: array<byte>
    var readIdx: nat
    var writeIdx: nat

    constructor (size: nat)
      ensures readIdx == writeIdx == 0 && buf.Length == size && fresh(buf)
    {
      buf := new byte[size](_ => 0);
      readIdx, writeIdx := 0, 0;
    }
  }

  /** Different buffers have different memory. */
  predicate Apart(bs: seq<ByteBuf>) {
    forall i, j | 0 <= i < j < |bs| :: bs[i] != bs[j] && bs[i].buf != bs[j].buf
  }

  predicate AwayFrom(b: ByteBuf, bs: seq<ByteBuf>) {
    forall c | c in bs :: c != b && c.buf != b.buf
  }

  function Without(bs: seq<ByteBuf>, i: nat): seq<ByteBuf>
    requires i < |bs|
  {
    bs[..i] + bs[i + 1..]
  }

  lemma WithoutApart(bs: seq<ByteBuf>, i: nat)
    requires Apart(bs) && i < |bs|
    ensures Apart(Without(bs, i)) && AwayFrom(bs[i], Without(bs, i))
    ensures forall c | c in Without(bs, i) :: c in bs
  {
  }

  predicate Separate(a: ByteBuf?, b: ByteBuf?) {
    a != null && b != null ==> a != b && a.buf != b.buf
  }

  /** A buffer that was not in the pool, and is not the one that another connection has given
      back, is not in the pool now; nor is it the one that the other connection now has. */
  lemma StaysAway(b: ByteBuf, was: seq<ByteBuf>, mine: ByteBuf?, now: seq<ByteBuf>, next: ByteBuf?)
    requires AwayFrom(b, was) && Separate(b, mine)
    requires forall c | c in now :: c in was || c == mine
    requires next == mine || next in was || Separate(b, next)
    ensures AwayFrom(b, now) && Separate(b, next) && Separate(next, b)
  {
  }

  /** A priority queue of buffers, the largest first. */
  class BufPool {
    var bufs: seq<ByteBuf>

    constructor ()
      ensures bufs == []
    {
      bufs := [];
    }

    /** The index of the largest buffer. */
    method Top() returns (i: nat)
      requires bufs != []
      ensures i < |bufs| && forall j | 0 <= j < |bufs| :: bufs[j].buf.Length <= bufs[i].buf.Length
    {
      i := 0;
      for k := 1 to |bufs|
        invariant i < |bufs| && forall j | 0 <= j < k :: bufs[j].buf.Length <= bufs[i].buf.Length
      {
        if bufs[k].buf.Length > bufs[i].buf.Length { i := k; }
      }
    }

    /** An empty buffer of at least `size` bytes: the largest of the pool, or a new one if
        that is too small. */
    method Malloc(size: nat) returns (b: ByteBuf)
      requires Apart(bufs)
      modifies this, bufs
      ensures Apart(bufs) && AwayFrom(b, bufs) && (forall c | c in bufs :: c in old(bufs))
      ensures b.buf.Length >= size && b.readIdx == b.writeIdx == 0
      ensures if fresh(b) then
                && fresh(b.buf) && bufs == old(bufs) && b.buf.Length == size
                && forall c | c in bufs :: c.buf.Length < size
              else b in old(bufs) && |bufs| == |old(bufs)| - 1 &&
                   forall c | c in old(bufs) :: c.buf.Length <= b.buf.Length && (c in bufs || c == b)
    {
      var i := 0;
      if bufs != [] { i := Top(); }
      if bufs == [] || bufs[i].buf.Length < size {
        b := new ByteBuf(size);
      } else {
        b := bufs[i];
        WithoutApart(bufs, i);
        bufs := Without(bufs, i);
        b.readIdx, b.writeIdx := 0, 0;
      }
    }

    method Free(b: ByteBuf)
      requires Apart(bufs) && AwayFrom(b, bufs)
      modifies this
      ensures Apart(bufs) && bufs == old(bufs) + [b]
    {
      assert forall i | 0 <= i < |bufs| :: bufs[i] in bufs;
      bufs := bufs + [b];
    }
  }

  /** The receiving end of a connection: its active buffer, and a pool that it may share with
      other connections. */
  class Inlet {
    const pool: BufPool
    var active: ByteBuf?

    constructor (pool: BufPool)
      requires Apart(pool.bufs)
      ensures this.pool == pool && active == null && Valid()
    {
      this.pool, active := pool, null;
    }

    /** The active buffer is not pooled, and its indices are in bounds. */
    ghost predicate Valid()
      reads this, pool, active
    {
      && Apart(pool.bufs)
      && (active != null ==> active.readIdx <= active.writeIdx <= active.buf.Length && AwayFrom(active, pool.bufs))
    }

    /** The bytes received and not yet consumed. */
    ghost function Unread(): seq<byte>
      requires Valid()
      reads this, pool, active, if active == null then {} else {active.buf}
    {
      if active == null then [] else active.buf[active.readIdx..active.writeIdx]
    }

    /** Free bytes behind the write index. */
    function Room(): int
      reads this, active
    {
      if active == null then 0 else active.buf.Length - active.writeIdx
    }

    /** Everything that the allocation callback may change. */
    ghost function Footprint(): set<object>
      reads this, pool
    {
      {this, pool} + (set b | b in pool.bufs) + (set b | b in pool.bufs :: b.buf)
      + if active == null then {} else {active, active.buf}
    }

    /** At most the active buffer has gone to the pool, and the active buffer is the same, or
        comes from the pool, or is new. */
    twostate predicate Recycled()
      reads this, pool
    {
      && (forall b | b in pool.bufs :: b in old(pool.bufs) || b == old(active))
      && (active == old(active) || active in old(pool.bufs) || (active != null && fresh(active) && fresh(active.buf)))
    }

    /** The active buffer is exchanged exactly when less than a third of the suggested size is
        free behind what has been written to it: for a pooled one if any is large enough, and
        only else for a new one.  The old one goes to the pool, and nothing else does. */
    twostate predicate Exchanged(suggested: nat)
      reads this, pool, active
    {
      var swaps := old(active) == null || old(active.buf.Length - active.writeIdx) < suggested / 3;
      && active != null && (active != old(active) <==> swaps) && (swaps ==> active.buf.Length >= suggested)
      && (if swaps && active !in old(pool.bufs) then
            && fresh(active) && active.buf.Length == suggested
            && forall c | c in old(pool.bufs) :: c.buf.Length < suggested
          else !fresh(active))
      && (forall c | c in old(pool.bufs) :: c in pool.bufs || c == active)
      && (swaps && old(active) != null ==> old(active) in pool.bufs)
      && |pool.bufs| == |old(pool.bufs)| - (if swaps && active in old(pool.bufs) then 1 else 0)
                                         + (if swaps && old(active) != null then 1 else 0)
    }

    /** Nothing has been done to it. */
    twostate predicate Left()
      reads this, active, if active == null then {} else {active.buf}
    {
      && active == old(active)
      && (active != null ==>
            && active.readIdx == old(active.readIdx) && active.writeIdx == old(active.writeIdx)
            && active.buf[..] == old(active.buf[..]))
    }

    /** The allocation callback.  No unread byte is lost or moved past another, and at least
        a third of the suggested size is free, or all that the unread bytes leave of it. */
    method Alloc(suggested: nat)
      requires Valid() && |Unread()| <= suggested
      modifies Footprint()
      ensures Valid() && active != null && Unread() == old(Unread())
      ensures Room() >= suggested / 3 || Room() >= suggested - |Unread()|
      ensures Recycled() && Exchanged(suggested) && fresh(Footprint() - old(Footprint()))
    {
      var remain := 0;
      if active != null { remain := active.buf.Length - active.writeIdx; }
      if active == null || remain < suggested / 3 { Swap(suggested); }
    }

    /** A pooled or new buffer takes over the unread bytes. */
    method Swap(suggested: nat)
      requires Valid() && |Unread()| <= suggested
      modifies Footprint()
      ensures Valid() && active != null && active != old(active) && Unread() == old(Unread())
      ensures active.readIdx == 0 && active.buf.Length >= suggested
      ensures if active in old(pool.bufs) then !fresh(active) && |pool.bufs| == |old(pool.bufs)| - 1 + OldOne()
              else && fresh(active) && fresh(active.buf) && active.buf.Length == suggested
                   && |pool.bufs| == |old(pool.bufs)| + OldOne()
                   && forall c | c in old(pool.bufs) :: c.buf.Length < suggested
      ensures forall c | c in pool.bufs :: c in old(pool.bufs) || c == old(active)
      ensures forall c | c in old(pool.bufs) :: c in pool.bufs || c == active
      ensures old(active) != null ==> old(active) in pool.bufs
    {
      var newBuf := pool.Malloc(suggested);
      if active != null {
        MoveTo(newBuf);
        pool.Free(active);
      }
      active := newBuf;
    }

    /** The number of buffers that a swap gives back. */
    twostate function OldOne(): nat {
      if old(active) == null then 0 else 1
    }

    /** The unread bytes are copied to the front of an empty buffer. */
    method MoveTo(b: ByteBuf)
      requires Valid() && active != null && b != active && b.buf != active.buf
      requires b.readIdx == b.writeIdx == 0 && |Unread()| <= b.buf.Length
      modifies b, b.buf
      ensures b.readIdx == 0 && b.writeIdx == |Unread()| && b.buf[..b.writeIdx] == Unread() == old(Unread())
    {
      var ri, wi := active.readIdx, active.writeIdx;
      for i := ri to wi
        invariant b.readIdx == 0 && b.writeIdx == i - ri && active.buf[ri..wi] == old(active.buf[ri..wi])
        invariant active.readIdx == ri && active.writeIdx == wi
        invariant b.buf[..i - ri] == active.buf[ri..i]
      {
        b.buf[i - ri] := active.buf[i];
        b.writeIdx := b.writeIdx + 1;
      }
    }

    /** Bytes arrive behind the write index; the read callback adds their number to it. */
    method Arrive(x: seq<byte>)
      requires Valid() && active != null && |x| <= Room()
      modifies active, active.buf
      ensures Valid() && Unread() == old(Unread()) + x && active.readIdx == old(active.readIdx)
    {
      for i := 0 to |x|
        invariant active == old(active) && active.writeIdx == old(active.writeIdx)
            && active.readIdx == old(active.readIdx)
        invariant active.writeIdx + |x| <= active.buf.Length
        invariant active.buf[..active.writeIdx] == old(active.buf[..active.writeIdx])
        invariant active.buf[active.writeIdx..active.writeIdx + i] == x[..i]
      {
        active.buf[active.writeIdx + i] := x[i];
      }
      active.writeIdx := active.writeIdx + |x|;
      assert active.buf[..active.writeIdx] == old(active.buf[..active.writeIdx]) + x;
    }

    /** The allocation callback and the arrival of as many of the offered bytes as there is
        room for: if the unread bytes do not fill the suggested size there always is some. */
    method Fill(suggested: nat, offered: seq<byte>) returns (n: nat)
      requires Valid() && |Unread()| < suggested && suggested >= 3
      modifies Footprint()
      ensures n <= |offered| && (offered != [] ==> n > 0)
      ensures Valid() && active != null && Unread() == old(Unread()) + offered[..n]
      ensures active in Footprint() && fresh(Footprint() - old(Footprint())) && Recycled()
      ensures if old(active) == null || old(active.buf.Length - active.writeIdx) < suggested / 3
              then
                && active != old(active)
                && (fresh(active) ==> forall c | c in old(pool.bufs) :: c.buf.Length < suggested)
              else active == old(active)
    {
      hide Apart, AwayFrom;
      Alloc(suggested);
      n := if |offered| <= Room() then |offered| else Room();
      Arrive(offered[..n]);
    }

    function Available(): (n: nat)
      requires Valid()
      reads this, pool, active, if active == null then {} else {active.buf}
      ensures n == |Unread()|
    {
      if active == null then 0 else active.writeIdx - active.readIdx
    }

    /** A magic number of `n` bytes that starts with two given ones; consumed if it is there. */
    method TakeMagic(first: byte, second: byte, n: nat) returns (fine: bool)
      requires Valid() && 2 <= n <= Available()
      modifies active
      ensures Valid() && active == old(active)
      ensures fine == (old(Unread())[0] == first && old(Unread())[1] == second)
      ensures Unread() == if fine then old(Unread())[n..] else old(Unread())
    {
      fine := active.buf[active.readIdx] == first && active.buf[active.readIdx + 1] == second;
      if fine { active.readIdx := active.readIdx + n; }
    }

    method TakeInt() returns (v: int)
      requires Valid() && Available() >= 4
      modifies active
      ensures Valid() && active == old(active) && v == ReadInt(old(Unread())[..4]) && Unread() == old(Unread())[4..]
    {
      ghost var u := Unread();
      v := Bytes2Int(active.buf, active.readIdx);
      assert u[..4] == active.buf[active.readIdx..active.readIdx + 4];
      active.readIdx := active.readIdx + 4;
    }

    method TakeLong() returns (v: int)
      requires Valid() && Available() >= 8
      modifies active
      ensures Valid() && active == old(active) && v == ReadLong(old(Unread())[..8]) && Unread() == old(Unread())[8..]
    {
      ghost var u := Unread();
      v := Bytes2Long(active.buf, active.readIdx);
      assert u[..8] == active.buf[active.readIdx..active.readIdx + 8];
      active.readIdx := active.readIdx + 8;
    }

    /** strncpy out of the buffer. */
    method TakeString(n: nat) returns (s: seq<byte>)
      requires Valid() && n <= Available() && active != null
      modifies active
      ensures Valid() && active == old(active) && s == CopyString(old(Unread())[..n]) && Unread() == old(Unread())[n..]
    {
      ghost var u := Unread();
      s := CopyString(active.buf[active.readIdx..active.readIdx + n]);
      assert u[..n] == active.buf[active.readIdx..active.readIdx + n];
      active.readIdx := active.readIdx + n;
    }
  }

  function CountTrue(bs: seq<bool>): nat {
    if bs == [] then 0 else CountTrue(bs[..|bs| - 1]) + if bs[|bs| - 1] then 1 else 0
  }

  lemma {:induction false} CountSet(bs: seq<bool>, k: nat)
    requires k < |bs|
    ensures CountTrue(bs[k := true]) == CountTrue(bs) + if bs[k] then 0 else 1
    decreases |bs|
  {
    var n := |bs| - 1;
    if k < n {
      CountSet(bs[..n], k);
      assert bs[k := true][..n] == bs[..n][k := true];
    } else {
      assert bs[k := true][..n] == bs[..n];
    }
  }

  lemma {:induction false} CountBound(bs: seq<bool>)
    ensures CountTrue(bs) <= |bs|
    decreases |bs|
  {
    if bs != [] { CountBound(bs[..|bs| - 1]); }
  }

  /** Which connections have a buffer. */
  ghost function BusyOf(all: seq<Inlet>): (bs: seq<bool>)
    reads all
    ensures |bs| == |all| && forall i | 0 <= i < |all| :: bs[i] == (all[i].active != null)
  {
    if all == [] then [] else BusyOf(all[..|all| - 1]) + [all[|all| - 1].active != null]
  }

  /** The connections of a provider agent, whose buffers come from one pool. */
  class Inlets {
    const pool: BufPool
    var all: seq<Inlet>
    ghost var made: nat   // buffers taken from the system
    ghost var peak: nat   // the most that were in use at one time, with the second one of a swap

    constructor ()
      ensures Valid() && all == [] && fresh(pool) && pool.bufs == []
      ensures Tight() && forall size: nat :: Uniform(size)
    {
      pool := new BufPool();
      all, made, peak := [], 0, 0;
    }

    ghost function Busy(): seq<bool>
      reads this, all
    {
      BusyOf(all)
    }

    ghost function InUse(): nat
      reads this, all
    {
      CountTrue(Busy())
    }

    /** All buffers have one size. */
    ghost predicate Uniform(size: nat)
      reads `all, pool, all
    {
      && (forall c | c in pool.bufs :: c.buf.Length == size)
      && forall i | i in all :: i.active != null ==> i.active.buf.Length == size
    }

    /** There are as many buffers as were ever needed at one time. */
    ghost predicate Tight()
      reads this, pool, all
    {
      made == peak == |pool.bufs| + InUse() && peak <= |all| + 1
    }

    /** No buffer is active twice, and none is pooled while it is active. */
    ghost predicate Valid()
      reads `all, pool, all, set i | i in all :: i.active
    {
      && (forall i | i in all :: i.pool == pool && i.Valid())
      && Apart(pool.bufs)
      && forall i, j | 0 <= i < j < |all| :: all[i] != all[j] && Separate(all[i].active, all[j].active)
    }

    /** `on_conn` */
    method Connect() returns (i: Inlet)
      requires Valid()
      modifies `all
      ensures Valid() && fresh(i) && all == old(all) + [i] && i.active == null
      ensures old(Tight()) ==> Tight()
      ensures forall size: nat :: old(Uniform(size)) ==> Uniform(size)
    {
      hide Apart, AwayFrom, Separate, BusyOf, CountTrue, Valid;
      ghost var busy := BusyOf(all);
      i := Open();
      OneMore(busy);
    }

    method Open() returns (i: Inlet)
      requires Valid()
      modifies `all
      ensures Valid() && fresh(i) && all == old(all) + [i] && i.active == null && BusyOf(old(all)) == old(BusyOf(all))
    {
      hide Apart, AwayFrom, BusyOf;
      i := new Inlet(pool);
      all := all + [i];
    }

    lemma OneMore(busy: seq<bool>)
      requires all != [] && all[|all| - 1].active == null && busy == BusyOf(all[..|all| - 1])
      ensures InUse() == CountTrue(busy)
    {
      assert Busy()[..|all| - 1] == busy;
    }

    /** The allocation callback of one connection.  The unread bytes of all of them stay what
        they are, and the buffers stay apart.  As long as one size is suggested, the system
        is asked for exactly as many buffers as are ever needed at one time, and that is at
        most one more than there are connections. */
    method Alloc(k: nat, suggested: nat)
      requires Valid() && k < |all| && |all[k].Unread()| <= suggested
      modifies `made, `peak, all[k].Footprint()
      ensures Valid() && all == old(all) && all[k].active != null && all[k].Exchanged(suggested)
      ensures forall j | 0 <= j < |all| :: all[j].Unread() == old(all[j].Unread())
      ensures all[k].Room() >= suggested / 3 || all[k].Room() >= suggested - |all[k].Unread()|
      ensures all[k].Recycled() && forall j | 0 <= j < |all| && j != k :: all[j].active == old(all[j].active)
      ensures made == old(made) + if fresh(all[k].active) then 1 else 0
      ensures peak == if all[k].active != old(all[k].active) && old(InUse()) + 1 > old(peak) then old(InUse()) + 1
                      else old(peak)
      ensures old(Uniform(suggested) && Tight()) ==> Uniform(suggested) && Tight()
    {
      hide Apart, AwayFrom, Separate, CountTrue, Uniform, Inlet.Exchanged, Inlet.Recycled, Valid, Inlet.Valid,
        Inlet.Footprint, Inlet.Unread, Inlet.Room, BusyOf;
      Pooled(k);
      ghost var busy, pooled, given, tight := Busy(), |pool.bufs|, all[k].active != null, Uniform(suggested) && Tight();
      ghost var swaps, fetched := AllocNoted(k, suggested);
      if fetched { made := made + 1; }
      if swaps && CountTrue(busy) + 1 > peak { peak := CountTrue(busy) + 1; }
      if tight { TightNow(k, busy, pooled, swaps && !fetched, fetched, swaps && given); }
    }

    lemma Pooled(k: nat)
      requires Valid() && k < |all|
      ensures all[k].pool == pool && all[k].Valid() && this !in all[k].Footprint()
      ensures forall j | 0 <= j < |all| :: all[j].Valid()
    {
      assert all[k] in all;
    }

    method AllocNoted(k: nat, suggested: nat) returns (ghost swaps: bool, ghost fetched: bool)
      requires Valid() && k < |all| && |all[k].Unread()| <= suggested
      modifies all[k].Footprint()
      ensures Valid() && all == old(all) && all[k].active != null && all[k].Exchanged(suggested)
      ensures forall j | 0 <= j < |all| :: all[j].Unread() == old(all[j].Unread())
      ensures all[k].Room() >= suggested / 3 || all[k].Room() >= suggested - |all[k].Unread()|
      ensures all[k].Recycled() && forall j | 0 <= j < |all| && j != k :: all[j].active == old(all[j].active)
      ensures swaps == (all[k].active != old(all[k].active)) && fetched == fresh(all[k].active) && (fetched ==> swaps)
      ensures old(all[k].active) == null ==> swaps
      ensures |pool.bufs| == |old(pool.bufs)| - (if swaps && !fetched then 1 else 0)
                                              + (if swaps && old(all[k].active) != null then 1 else 0)
      ensures Busy() == old(Busy())[k := true]
      ensures old(Uniform(suggested)) ==>
          Uniform(suggested) && (fetched ==> old(pool.bufs) == []) && (swaps && !fetched ==> old(pool.bufs) != [])
    {
      hide Apart, AwayFrom, Separate, BusyOf, Valid, Inlet.Valid, Inlet.Footprint, CountTrue;
      Pooled(k);
      ghost var busy, was, pooled := Busy(), all[k].active, pool.bufs;
      AllocAside(k, suggested);
      swaps, fetched := all[k].active != was, all[k].active !in pooled && all[k].active != was;
      assert Busy() == busy[k := true];
      if fetched && pooled != [] { assert pooled[0] in pooled; }
    }

    lemma TightNow(k: nat, busy: seq<bool>, pooled: nat, taken: bool, fetched: bool, given: bool)
      requires k < |all| == |busy| && Busy() == busy[k := true] && CountTrue(busy) + pooled <= |all| + 1
      requires |pool.bufs| == pooled - (if taken then 1 else 0) + (if given then 1 else 0)
      requires if busy[k] then given == (taken || fetched) else !given && (taken || fetched)
      requires !(taken && fetched) && (fetched ==> pooled == 0) && (taken ==> pooled > 0)
      requires made == pooled + CountTrue(busy) + (if fetched then 1 else 0)
      requires peak == if (taken || fetched) && CountTrue(busy) + 1 > pooled + CountTrue(busy) then CountTrue(busy) + 1
                       else pooled + CountTrue(busy)
      ensures Tight()
    {
      hide CountTrue;
      CountSet(busy, k);
      CountBound(busy);
    }

    /** The same, one connection against another. */
    method AllocAside(k: nat, suggested: nat)
      requires Valid() && k < |all| && |all[k].Unread()| <= suggested
      modifies all[k].Footprint()
      ensures Valid() && all == old(all) && all[k].pool == pool
      ensures all[k].Valid() && all[k].active != null && all[k].Unread() == old(all[k].Unread())
      ensures all[k].Room() >= suggested / 3 || all[k].Room() >= suggested - |all[k].Unread()|
      ensures all[k].Exchanged(suggested) && all[k].Recycled()
      ensures forall j | 0 <= j < |all| && j != k ::
          && all[j].active == old(all[j].active) && all[j].Valid() && all[j].Unread() == old(all[j].Unread())
          && Separate(all[j].active, all[k].active) && Separate(all[k].active, all[j].active)
    {
      hide Apart, AwayFrom, Separate, Inlet.Exchanged, Inlet.Room, Inlet.Recycled;
      forall j | 0 <= j < |all| && j != k { Distinct(j, k); }
      all[k].Alloc(suggested);
      forall j | 0 <= j < |all| && j != k ensures all[j].Left() {}
      Aside(k);
    }

    /** One connection has allocated a buffer. */
    twostate lemma Aside(k: nat)
      requires old(Valid()) && k < |all| && all == old(all) && all[k].Valid() && all[k].Recycled()
      requires forall j | 0 <= j < |all| && j != k :: all[j].Left()
      ensures Valid()
      ensures forall j | 0 <= j < |all| && j != k ::
          && all[j].Valid() && all[j].Unread() == old(all[j].Unread())
          && Separate(all[j].active, all[k].active) && Separate(all[k].active, all[j].active)
    {
      hide Apart, AwayFrom;
      forall j | 0 <= j < |all| && j != k
        ensures all[j].Valid() && all[j].Unread() == old(all[j].Unread())
        ensures Separate(all[j].active, all[k].active) && Separate(all[k].active, all[j].active)
      {
        var b := all[j].active;
        if b != null {
          assert AwayFrom(b, old(all[k].pool.bufs)) && Separate(b, old(all[k].active));
          assert fresh(all[k].active) ==> Separate(b, all[k].active);
          StaysAway(b, old(all[k].pool.bufs), old(all[k].active), all[k].pool.bufs, all[k].active);
        }
      }
    }

    /** What belongs to one connection is out of reach of the others. */
    lemma Distinct(j: nat, k: nat)
      requires Valid() && j < |all| && k < |all| && j != k
      ensures all[j] !in all[k].Footprint()
      ensures var b := all[j].active;
          b != null ==>
            && b !in all[k].Footprint() && b.buf !in all[k].Footprint() && AwayFrom(b, pool.bufs)
            && Separate(b, all[k].active)
    {
      assert all[j].Valid() && all[k].Valid();
    }

    /** Bytes arrive on one connection, and nothing on the others. */
    method Arrive(k: nat, x: seq<byte>)
      requires Valid() && k < |all| && all[k].active != null && |x| <= all[k].Room()
      modifies all[k].active, all[k].active.buf
      ensures Valid() && all == old(all) && all[k].Unread() == old(all[k].Unread()) + x
      ensures forall j | 0 <= j < |all| && j != k :: all[j].Unread() == old(all[j].Unread())
    {
      all[k].Arrive(x);
    }

    /** Bytes are read on one connection. */
    method Read(k: nat, n: nat)
      requires Valid() && k < |all| && n <= all[k].Available()
      modifies all[k].active
      ensures Valid() && all == old(all) && all[k].Unread() == old(all[k].Unread())[n..]
      ensures forall j | 0 <= j < |all| && j != k :: all[j].Unread() == old(all[j].Unread())
    {
      if all[k].active != null { var s := all[k].TakeString(n); }
    }
  }

  datatype Event = Connected | Asked(k: nat) | Arrived(k: nat, x: seq<byte>) | Consumed(k: nat, n: nat)

  /** A provider agent whose event loop suggests one size: whatever happens, in whatever order,
      the system has been asked for as many buffers as were ever needed at one time. */
  method Serve(size: nat, events: seq<Event>) returns (s: Inlets)
    ensures s.Valid() && s.Uniform(size) && s.Tight()
  {
    hide Apart, AwayFrom, Separate, BusyOf, CountTrue, Inlets.Valid, Inlets.Uniform, Inlets.Tight, Inlet.Valid,
      Inlet.Exchanged, Inlet.Unread;
    s := new Inlets();
    for n := 0 to |events|
      invariant fresh(s) && fresh(s.pool) && s.Valid() && s.Uniform(size) && s.Tight()
      invariant forall i | i in s.all :: fresh(i) && (i.active != null ==> fresh(i.active) && fresh(i.active.buf))
      invariant forall b | b in s.pool.bufs :: fresh(b) && fresh(b.buf)
    {
      match events[n] {
        case Connected =>
          var i := s.Connect();
        case Asked(k) =>
          if k < |s.all| {
            s.Pooled(k);
            if s.all[k].Available() <= size { s.Alloc(k, size); }
          }
        case Arrived(k, x) =>
          if k < |s.all| && s.all[k].active != null && |x| <= s.all[k].Room() { s.Arrive(k, x); }
        case Consumed(k, m) =>
          if k < |s.all| {
            s.Pooled(k);
            if m <= s.all[k].Available() { s.Read(k, m); }
          }
      }
    }
  }
}
