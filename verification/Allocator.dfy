/** The recycling allocator `x_malloc` / `x_free`: best fit with a waste bound. */
module Allocator {

  type Ptr = nat

  /** An entry of the multimap of pooled blocks, which is ordered by size. */
  datatype Entry = Entry(size: nat, ptr: Ptr)

  predicate Sorted(es: seq<Entry>) {
    forall i, j | 0 <= i < j < |es| :: es[i].size <= es[j].size
  }

  function Pointers(es: seq<Entry>): set<Ptr> {
    set e | e in es :: e.ptr
  }

  predicate Distinct(es: seq<Entry>) {
    forall i, j | 0 <= i < j < |es| :: es[i].ptr != es[j].ptr
  }

  /** `lower_bound`: the first entry that is large enough. */
  function LowerBound(es: seq<Entry>, n: nat): (i: nat)
    ensures i <= |es| && (forall j | 0 <= j < i :: es[j].size < n) && (i < |es| ==> es[i].size >= n)
  {
    if es == [] || es[0].size >= n then 0 else 1 + LowerBound(es[1..], n)
  }

  /** Where `insert` puts an entry: behind those of its size. */
  function UpperBound(es: seq<Entry>, n: nat): (i: nat)
    ensures i <= |es| && (forall j | 0 <= j < i :: es[j].size <= n) && (i < |es| ==> es[i].size > n)
  {
    if es == [] || es[0].size > n then 0 else 1 + UpperBound(es[1..], n)
  }

  function Inserted(es: seq<Entry>, e: Entry): seq<Entry> {
    var i := UpperBound(es, e.size);
    es[..i] + [e] + es[i..]
  }

  function Removed(es: seq<Entry>, i: nat): seq<Entry>
    requires i < |es|
  {
    es[..i] + es[i + 1..]
  }

  lemma InsertedElements(es: seq<Entry>, e: Entry)
    ensures forall x :: x in Inserted(es, e) <==> x in es || x == e
    ensures Pointers(Inserted(es, e)) == Pointers(es) + {e.ptr}
  {
    var i := UpperBound(es, e.size);
    assert es == es[..i] + es[i..];
    var a, b := es[..i], es[i..];
    assert forall x :: x in es <==> x in a || x in b;
    assert forall x :: x in Inserted(es, e) <==> x in a || x == e || x in b;
  }

  lemma InsertedAt(es: seq<Entry>, e: Entry, k: nat)
    requires k <= |es|
    ensures |Inserted(es, e)| == |es| + 1
    ensures var i := UpperBound(es, e.size);
        Inserted(es, e)[k] == if k < i then es[k] else if k == i then e else es[k - 1]
  {
  }

  lemma InsertedKeeps(es: seq<Entry>, e: Entry)
    requires Sorted(es) && Distinct(es) && e.ptr !in Pointers(es)
    ensures Sorted(Inserted(es, e)) && Distinct(Inserted(es, e))
  {
    hide Inserted, UpperBound;
    InsertedAt(es, e, 0);
    forall x, y | 0 <= x < y < |Inserted(es, e)|
      ensures Inserted(es, e)[x].size <= Inserted(es, e)[y].size
      ensures Inserted(es, e)[x].ptr != Inserted(es, e)[y].ptr
    {
      InsertedAt(es, e, x);
      InsertedAt(es, e, y);
      InsertedPair(es, e, x, y);
    }
  }

  lemma InsertedPair(es: seq<Entry>, e: Entry, x: nat, y: nat)
    requires Sorted(es) && Distinct(es) && e.ptr !in Pointers(es) && x < y <= |es|
    ensures var i := UpperBound(es, e.size);
        var a := if x < i then es[x] else if x == i then e else es[x - 1];
        var b := if y < i then es[y] else if y == i then e else es[y - 1];
        a.size <= b.size && a.ptr != b.ptr
  {
    hide UpperBound;
    var i := UpperBound(es, e.size);
    if x < i { assert es[x] in es; } else if x > i { assert es[x - 1] in es; }
    if y < i { assert es[y] in es; } else if y > i { assert es[y - 1] in es; }
  }

  lemma RemovedAt(es: seq<Entry>, i: nat, k: nat)
    requires i < |es| && k + 1 < |es|
    ensures |Removed(es, i)| == |es| - 1 && Removed(es, i)[k] == es[if k < i then k else k + 1]
  {
  }

  lemma RemovedPointers(es: seq<Entry>, i: nat)
    requires Distinct(es) && i < |es|
    ensures Pointers(Removed(es, i)) == Pointers(es) - {es[i].ptr}
  {
    forall p ensures p in Pointers(Removed(es, i)) <==> p in Pointers(es) && p != es[i].ptr {
      if p in Pointers(Removed(es, i)) {
        var k :| 0 <= k < |Removed(es, i)| && Removed(es, i)[k].ptr == p;
        RemovedAt(es, i, k);
        assert es[if k < i then k else k + 1] in es;
      }
    }
  }

  lemma RemovedKeeps(es: seq<Entry>, i: nat)
    requires Sorted(es) && Distinct(es) && i < |es|
    ensures Sorted(Removed(es, i)) && Distinct(Removed(es, i))
    ensures forall x | x in Removed(es, i) :: x in es
    ensures Pointers(Removed(es, i)) == Pointers(es) - {es[i].ptr}
  {
    RemovedPointers(es, i);
    var r := Removed(es, i);
    hide Removed, Pointers;
    forall x, y | 0 <= x < y < |r| ensures r[x].size <= r[y].size && r[x].ptr != r[y].ptr {
      RemovedAt(es, i, x);
      RemovedAt(es, i, y);
    }
    forall x | x in r ensures x in es {
      var k :| 0 <= k < |r| && r[k] == x;
      RemovedAt(es, i, k);
    }
  }

  // ---------------------------------------------------------------- sizes

  const SMALL := 32
  const MEDIUM := 66

  /** The size of a new block. */
  function RoundUp(n: nat): nat {
    if n < SMALL then SMALL else if n < MEDIUM then MEDIUM else n
  }

  /** A block is large enough, and at most twice as large as asked for, or small anyway. */
  predicate Serves(size: nat, n: nat) {
    n <= size && (size <= 2 * n || size <= 66)
  }

  lemma RoundUpServes(n: nat)
    ensures Serves(RoundUp(n), n)
  {
  }

  // ---------------------------------------------------------------- runs

  /** The allocator with the blocks that are handed out and not given back, and the most
      there ever were of those.  Every key of `sizes` is one call of the system's malloc. */
  datatype Heap = Heap(pool: seq<Entry>, sizes: map<Ptr, nat>, live: set<Ptr>, peak: nat)

  const NEW_HEAP := Heap([], map[], {}, 0)

  /** Live and pooled blocks are disjoint and together all there are; every pooled entry has
      the size of its block. */
  predicate Sound(h: Heap) {
    && Sorted(h.pool) && Distinct(h.pool)
    && h.live !! Pointers(h.pool) && h.sizes.Keys == h.live + Pointers(h.pool)
    && (forall e | e in h.pool :: e.ptr in h.sizes && h.sizes[e.ptr] == e.size)
    && |h.live| <= h.peak <= |h.sizes|
  }

  /** Some pooled block will do. */
  predicate Hits(h: Heap, n: nat) {
    var it := LowerBound(h.pool, n);
    it < |h.pool| && (h.pool[it].size <= 2 * n || h.pool[it].size <= MEDIUM)
  }

  function Given(h: Heap, n: nat, unused: Ptr): Ptr {
    if Hits(h, n) then h.pool[LowerBound(h.pool, n)].ptr else unused
  }

  function Live(h: Heap, p: Ptr): Heap {
    var live := h.live + {p};
    h.(live := live, peak := if |live| > h.peak then |live| else h.peak)
  }

  function AfterMalloc(h: Heap, n: nat, unused: Ptr): Heap {
    var h' := if Hits(h, n) then h.(pool := Removed(h.pool, LowerBound(h.pool, n)))
              else h.(sizes := h.sizes[unused := RoundUp(n)]);
    Live(h', Given(h, n, unused))
  }

  function AfterFree(h: Heap, p: Ptr): Heap {
    if p in h.sizes then h.(pool := Inserted(h.pool, Entry(h.sizes[p], p)), live := h.live - {p}) else h
  }

  lemma {:induction false} SubsetSize(a: set<Ptr>, b: set<Ptr>)
    requires a <= b
    ensures |a| <= |b|
    decreases |a|
  {
    if x :| x in a {
      SubsetSize(a - {x}, b - {x});
    }
  }

  lemma PeakSound(h: Heap, p: Ptr)
    requires p !in h.live && h.live + {p} <= h.sizes.Keys && |h.live| <= h.peak <= |h.sizes|
    ensures |Live(h, p).live| <= Live(h, p).peak <= |h.sizes|
  {
    SubsetSize(h.live + {p}, h.sizes.Keys);
    assert |h.sizes| == |h.sizes.Keys|;
  }

  lemma HitsExact(h: Heap, n: nat)
    requires Sound(h)
    ensures Hits(h, n) <==> exists e :: e in h.pool && Serves(e.size, n)
    ensures Hits(h, n) ==> var b := h.pool[LowerBound(h.pool, n)];
        b in h.pool && Serves(b.size, n) && forall e | e in h.pool && e.size >= n :: b.size <= e.size
  {
    var it := LowerBound(h.pool, n);
    if it < |h.pool| { assert h.pool[it] in h.pool; }
    forall e | e in h.pool && e.size >= n ensures it < |h.pool| && h.pool[it].size <= e.size {
      var k :| 0 <= k < |h.pool| && h.pool[k] == e;
    }
  }

  lemma TakenOut(h: Heap, b: Entry, pool: seq<Entry>)
    requires Sound(h) && b in h.pool && Sorted(pool) && Distinct(pool) && forall e | e in pool :: e in h.pool
    requires b.ptr in Pointers(h.pool) && Pointers(pool) == Pointers(h.pool) - {b.ptr}
    ensures Sound(Live(h.(pool := pool), b.ptr)) && b.ptr !in h.live && h.sizes[b.ptr] == b.size
  {
    hide Pointers, Sorted, Distinct;
    PeakSound(h, b.ptr);
  }

  lemma MallocHit(h: Heap, n: nat, unused: Ptr)
    requires Sound(h) && Hits(h, n)
    ensures var z, p := AfterMalloc(h, n, unused), Given(h, n, unused);
        && Sound(z) && p !in h.live && z.live == h.live + {p} && Serves(z.sizes[p], n)
        && z.sizes == h.sizes && p in Pointers(h.pool) && forall e | e in h.pool && e.size >= n :: h.sizes[p] <= e.size
  {
    var it := LowerBound(h.pool, n);
    var b, pool := h.pool[it], Removed(h.pool, it);
    HitsExact(h, n);
    assert b.ptr in Pointers(h.pool);
    RemovedKeeps(h.pool, it);
    TakenOut(h, b, pool);
    hide LowerBound, Removed, Serves, Hits, Sound, Pointers, Sorted, Distinct;
    assert AfterMalloc(h, n, unused) == Live(h.(pool := pool), b.ptr);
  }

  lemma KeysGrow(m: map<Ptr, nat>, p: Ptr, size: nat)
    requires p !in m
    ensures m[p := size].Keys == m.Keys + {p} && |m[p := size]| == |m| + 1
  {
    assert m[p := size].Keys == m.Keys + {p};
    assert |m[p := size]| == |m[p := size].Keys| && |m| == |m.Keys|;
  }

  lemma Added(h: Heap, p: Ptr, size: nat)
    requires Sound(h) && p !in h.sizes
    ensures Sound(Live(h.(sizes := h.sizes[p := size]), p)) && p !in h.live
  {
    hide Pointers, Sorted, Distinct;
    KeysGrow(h.sizes, p, size);
    PeakSound(h.(sizes := h.sizes[p := size]), p);
  }

  lemma MallocMiss(h: Heap, n: nat, unused: Ptr)
    requires Sound(h) && !Hits(h, n) && unused !in h.sizes
    ensures var z := AfterMalloc(h, n, unused);
        && Sound(z) && unused !in h.live && z.live == h.live + {unused} && Serves(z.sizes[unused], n)
        && z.pool == h.pool && z.sizes == h.sizes[unused := RoundUp(n)]
  {
    Added(h, unused, RoundUp(n));
    RoundUpServes(n);
    hide LowerBound, Hits, Sound, RoundUp, Serves;
  }

  /** A request is served by a block of the right size that was not live; out of the pool if
      and only if a pooled block will do, and then the smallest that is large enough. */
  lemma MallocSound(h: Heap, n: nat, unused: Ptr)
    requires Sound(h) && unused !in h.sizes
    ensures var z, p := AfterMalloc(h, n, unused), Given(h, n, unused);
        && Sound(z) && p !in h.live && z.live == h.live + {p} && Serves(z.sizes[p], n)
        && (Hits(h, n) <==> exists e :: e in h.pool && Serves(e.size, n))
        && (if Hits(h, n) then
              && z.sizes == h.sizes && p in Pointers(h.pool)
              && forall e | e in h.pool && e.size >= n :: h.sizes[p] <= e.size
            else p == unused && z.pool == h.pool && z.sizes == h.sizes[p := RoundUp(n)])
  {
    HitsExact(h, n);
    if Hits(h, n) { MallocHit(h, n, unused); } else { MallocMiss(h, n, unused); }
    hide Sound, Serves, Hits, AfterMalloc;
  }

  lemma FreeSound(h: Heap, p: Ptr)
    requires Sound(h) && (p in h.sizes ==> p in h.live)
    ensures var z := AfterFree(h, p);
        && Sound(z) && z.live == h.live - {p} && z.sizes == h.sizes
        && (p in h.live ==> Pointers(z.pool) == Pointers(h.pool) + {p})
  {
    if p in h.sizes {
      var e := Entry(h.sizes[p], p);
      InsertedElements(h.pool, e);
      InsertedKeeps(h.pool, e);
      SubsetSize(h.live - {p}, h.live);
      Returned(h, p, Inserted(h.pool, e));
    }
  }

  lemma Returned(h: Heap, p: Ptr, pool: seq<Entry>)
    requires Sound(h) && p in h.live && Sorted(pool) && Distinct(pool) && Pointers(pool) == Pointers(h.pool) + {p}
    requires p in h.sizes && forall e | e in pool :: e in h.pool || e == Entry(h.sizes[p], p)
    ensures Sound(h.(pool := pool, live := h.live - {p}))
  {
    hide Pointers, Sorted, Distinct;
    SubsetSize(h.live - {p}, h.live);
  }

  datatype Operation = Request(n: nat, unused: Ptr) | Release(ptr: Ptr)

  /** malloc returns an address that is not in use; only live blocks are given back. */
  predicate Legal(h: Heap, o: Operation) {
    match o
    case Request(_, unused) => unused !in h.sizes
    case Release(p) => p in h.live
  }

  function After(h: Heap, o: Operation): Heap {
    match o
    case Request(n, unused) => AfterMalloc(h, n, unused)
    case Release(p) => AfterFree(h, p)
  }

  function AfterAll(ops: seq<Operation>): Heap {
    if ops == [] then NEW_HEAP else After(AfterAll(ops[..|ops| - 1]), ops[|ops| - 1])
  }

  predicate LegalRun(ops: seq<Operation>) {
    ops == [] || (LegalRun(ops[..|ops| - 1]) && Legal(AfterAll(ops[..|ops| - 1]), ops[|ops| - 1]))
  }

  lemma {:induction false} RunSound(ops: seq<Operation>)
    requires LegalRun(ops)
    ensures Sound(AfterAll(ops))
    decreases |ops|
  {
    if ops != [] {
      RunSound(ops[..|ops| - 1]);
      StepSound(AfterAll(ops[..|ops| - 1]), ops[|ops| - 1]);
    }
  }

  lemma StepSound(h: Heap, o: Operation)
    requires Sound(h) && Legal(h, o)
    ensures Sound(After(h, o))
  {
    match o
    case Request(n, unused) => MallocSound(h, n, unused);
    case Release(p) => FreeSound(h, p);
  }

  // ---------------------------------------------------------------- recycling

  /** Some request of the run asked for this many bytes. */
  predicate Asked(n: nat, ops: seq<Operation>) {
    exists o | o in ops :: o.Request? && o.n == n
  }

  /** Blocks of the system have 32 bytes, or 66, or the larger size that was asked for. */
  predicate Graded(size: nat, ops: seq<Operation>) {
    size == 32 || size == 66 || (size > 66 && Asked(size, ops))
  }

  lemma SizesAfter(h: Heap, o: Operation)
    ensures After(h, o).sizes == if o.Request? && !Hits(h, o.n) then h.sizes[o.unused := RoundUp(o.n)] else h.sizes
  {
    hide Hits, LowerBound, Removed, Inserted, RoundUp;
  }

  lemma NewGraded(ops: seq<Operation>)
    requires ops != [] && ops[|ops| - 1].Request?
    ensures Graded(RoundUp(ops[|ops| - 1].n), ops)
  {
    assert ops[|ops| - 1] in ops;
  }

  lemma StillGraded(size: nat, ops: seq<Operation>)
    requires ops != [] && Graded(size, ops[..|ops| - 1])
    ensures Graded(size, ops)
  {
    assert forall o | o in ops[..|ops| - 1] :: o in ops;
  }

  predicate AllGraded(sizes: map<Ptr, nat>, ops: seq<Operation>) {
    forall p | p in sizes :: Graded(sizes[p], ops)
  }

  lemma GradedOn(sizes: map<Ptr, nat>, ops: seq<Operation>)
    requires ops != [] && AllGraded(sizes, ops[..|ops| - 1])
    ensures AllGraded(sizes, ops)
    ensures var o := ops[|ops| - 1]; o.Request? ==> AllGraded(sizes[o.unused := RoundUp(o.n)], ops)
  {
    hide Graded, RoundUp;
    forall p | p in sizes ensures Graded(sizes[p], ops) { StillGraded(sizes[p], ops); }
    if ops[|ops| - 1].Request? { NewGraded(ops); }
  }

  lemma {:induction false} SizesGraded(ops: seq<Operation>)
    ensures AllGraded(AfterAll(ops).sizes, ops)
    decreases |ops|
  {
    hide AllGraded, After, Hits, RoundUp;
    if ops == [] {
      NoneGraded();
    } else {
      var k := |ops| - 1;
      SizesGraded(ops[..k]);
      SizesAfter(AfterAll(ops[..k]), ops[k]);
      GradedOn(AfterAll(ops[..k]).sizes, ops);
    }
  }

  lemma NoneGraded()
    ensures AllGraded(NEW_HEAP.sizes, [])
  {
  }

  predicate Requests(ops: seq<Operation>, low: nat, high: nat) {
    forall o | o in ops :: o.Request? ==> low <= o.n <= high
  }

  /** Every block of the run has this size, and there are as many as were ever live at one time. */
  predicate Recycles(size: nat, ops: seq<Operation>) {
    var h := AfterAll(ops);
    |h.sizes| == h.peak && forall p | p in h.sizes :: h.sizes[p] == size
  }

  /** If all requests have one size, the system is asked for exactly as many blocks as were
      ever live at one time. */
  lemma OneSizeExact(n: nat, ops: seq<Operation>)
    requires LegalRun(ops) && Requests(ops, n, n)
    ensures Recycles(if n < 32 then 32 else if n < 66 then 66 else n, ops)
  {
    RecyclesAll(n, n, if n < 32 then 32 else if n < 66 then 66 else n, ops);
  }

  /** So it is if all requests are small, of whatever sizes. */
  lemma SmallExact(ops: seq<Operation>)
    requires LegalRun(ops) && Requests(ops, 0, 31)
    ensures Recycles(32, ops)
  {
    RecyclesAll(0, 31, 32, ops);
  }

  lemma MediumExact(ops: seq<Operation>)
    requires LegalRun(ops) && Requests(ops, 32, 65)
    ensures Recycles(66, ops)
  {
    RecyclesAll(32, 65, 66, ops);
  }

  lemma {:induction false} RecyclesAll(low: nat, high: nat, size: nat, ops: seq<Operation>)
    requires LegalRun(ops) && Requests(ops, low, high) && forall n | low <= n <= high :: RoundUp(n) == size
    ensures Recycles(size, ops)
    decreases |ops|
  {
    if ops != [] {
      var k := |ops| - 1;
      assert ops[k] in ops && forall o | o in ops[..k] :: o in ops;
      RecyclesAll(low, high, size, ops[..k]);
      RunSound(ops[..k]);
      RecyclesStep(size, AfterAll(ops[..k]), ops[k]);
    }
  }

  lemma RecyclesStep(size: nat, h: Heap, o: Operation)
    requires Sound(h) && Legal(h, o) && (o.Request? ==> RoundUp(o.n) == size)
    requires |h.sizes| == h.peak && forall p | p in h.sizes :: h.sizes[p] == size
    ensures var z := After(h, o); |z.sizes| == z.peak && forall p | p in z.sizes :: z.sizes[p] == size
  {
    if o.Request? {
      MallocSound(h, o.n, o.unused);
      RoundUpServes(o.n);
      if !Hits(h, o.n) {
        assert h.pool == [];
        assert h.sizes.Keys == h.live;
        assert h.sizes[o.unused := size].Keys == h.live + {o.unused};
      } else {
        StepSound(h, o);
      }
    }
  }

  // ---------------------------------------------------------------- the pool

  class XMemPool {
    var ptrPool: seq<Entry>
    var ptrSizeMap: map<Ptr, nat>
    ghost var live: set<Ptr>
    ghost var peak: nat

    ghost function State(): Heap
      reads this
    {
      Heap(ptrPool, ptrSizeMap, live, peak)
    }

    constructor ()
      ensures State() == NEW_HEAP && Sound(State())
    {
      ptrPool, ptrSizeMap, live, peak := [], map[], {}, 0;
    }

    /** `unused` is what the system's malloc would return. */
    method XMalloc(size: nat, unused: Ptr) returns (res: Ptr)
      requires Sound(State()) && unused !in ptrSizeMap
      modifies this
      ensures Sound(State()) && State() == AfterMalloc(old(State()), size, unused)
      ensures res !in old(live) && live == old(live) + {res} && Serves(ptrSizeMap[res], size)
    {
      MallocSound(State(), size, unused);
      var it := LowerBound(ptrPool, size);
      if it < |ptrPool| && (ptrPool[it].size <= 2 * size || ptrPool[it].size <= MEDIUM) {
        res := ptrPool[it].ptr;
        ptrPool := Removed(ptrPool, it);
      } else {
        res := unused;
        ptrSizeMap := ptrSizeMap[res := RoundUp(size)];
      }
      live := live + {res};
      peak := if |live| > peak then |live| else peak;
    }

    /** A live block goes back to the pool; an unknown address is left to the system. */
    method XFree(ptr: Ptr)
      requires Sound(State()) && (ptr in ptrSizeMap ==> ptr in live)
      modifies this
      ensures Sound(State()) && State() == AfterFree(old(State()), ptr)
    {
      FreeSound(State(), ptr);
      if ptr in ptrSizeMap {
        ptrPool := Inserted(ptrPool, Entry(ptrSizeMap[ptr], ptr));
        live := live - {ptr};
      }
    }
  }
}
