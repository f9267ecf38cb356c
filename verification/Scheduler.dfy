/** The weighted round-robin schedulers: the incremental one of the consumer agents and the
    bisecting one of the first version, on the same cumulative weights. */
module Scheduler {

  // ---------------------------------------------------------------- cumulative weights

  /** The sum of the first `i` weights. */
  function Prefix(w: seq<nat>, i: nat): nat
    requires i <= |w|
  {
    if i == 0 then 0 else Prefix(w, i - 1) + w[i - 1]
  }

  function Total(w: seq<nat>): nat { Prefix(w, |w|) }

  /** The array `rate`. */
  function Rate(w: seq<nat>): seq<nat> {
    seq(|w|, i requires 0 <= i < |w| => Prefix(w, i + 1))
  }

  lemma RateAt(w: seq<nat>, i: nat)
    requires i < |w|
    ensures |Rate(w)| == |w| && Rate(w)[i] == Prefix(w, i + 1)
  {
  }

  lemma {:induction false} PrefixMono(w: seq<nat>, i: nat, j: nat)
    requires i <= j <= |w|
    ensures Prefix(w, i) <= Prefix(w, j)
    decreases j
  {
    if i < j { PrefixMono(w, i, j - 1); }
  }

  /** Python's bisect_left on a sorted sequence: the least index with a[i] >= x. */
  function BisectLeft(a: seq<nat>, x: nat): (i: nat)
    ensures i <= |a| && (forall j | 0 <= j < i :: a[j] < x) && (i < |a| ==> a[i] >= x)
  {
    if a == [] || a[0] >= x then 0 else 1 + BisectLeft(a[1..], x)
  }

  /** The endpoint whose share of the total contains `k`. */
  function Choice(w: seq<nat>, k: nat): (i: nat)
    requires k < Total(w)
    ensures i < |w| && Prefix(w, i) <= k < Prefix(w, i + 1)
  {
    var i := BisectLeft(Rate(w), k + 1);
    assert w != [] && Rate(w)[|w| - 1] == Total(w);
    assert i < |w| && (i > 0 ==> Rate(w)[i - 1] == Prefix(w, i));
    i
  }

  /** Shares do not overlap. */
  lemma ChoiceUnique(w: seq<nat>, k: nat, i: nat)
    requires k < Total(w) && i < |w| && Prefix(w, i) <= k < Prefix(w, i + 1)
    ensures Choice(w, k) == i
  {
    var c := Choice(w, k);
    if c < i { PrefixMono(w, c + 1, i); } else if i < c { PrefixMono(w, i + 1, c); }
  }

  // ---------------------------------------------------------------- the incremental form

  datatype Wheel = Wheel(prev: nat, rv: nat)

  function Turn(w: seq<nat>, s: Wheel): (t: Wheel)
    requires s.prev < Total(w) && s.rv < |w|
    ensures t.prev < Total(w) && t.rv < |w|
  {
    var p := if s.prev + 1 == Total(w) then 0 else s.prev + 1;
    Wheel(p, if p == 0 then 0 else if p >= Prefix(w, s.rv + 1) then (if s.rv + 1 == |w| then 0 else s.rv + 1) else s.rv)
  }

  function Turned(w: seq<nat>, n: nat): (s: Wheel)
    requires Total(w) > 0
    ensures s.rv < |w| && s.prev < Total(w)
  {
    if n == 0 then (assert w != []; Wheel(0, 0)) else Turn(w, Turned(w, n - 1))
  }

  /** No endpoint of weight 0 stands before one of positive weight. */
  predicate ZerosLast(w: seq<nat>) {
    forall i, j | 0 <= i < j < |w| && w[j] > 0 :: w[i] > 0
  }

  // ---------------------------------------------------------------- counting calls in rounds

  /** The place of call `n` in its round of `t` calls, and the rounds before it. */
  function Place(n: nat, t: nat): (k: nat)
    requires t > 0
    ensures k < t
  {
    if n == 0 || Place(n - 1, t) + 1 == t then 0 else Place(n - 1, t) + 1
  }

  function Rounds(n: nat, t: nat): nat
    requires t > 0
  {
    if n == 0 then 0 else Rounds(n - 1, t) + if Place(n, t) == 0 then 1 else 0
  }

  function Times(q: nat, x: nat): nat { q * x }

  lemma NoTimes(x: nat)
    ensures Times(0, x) == 0
  {
  }

  lemma TimesMore(q: nat, x: nat)
    ensures Times(q + 1, x) == Times(q, x) + x
  {
  }

  lemma {:induction false} TimesMono(p: nat, q: nat, x: nat)
    requires p <= q
    ensures Times(p, x) <= Times(q, x)
    decreases q
  {
    if p < q {
      TimesMore(q - 1, x);
      hide Times;
      TimesMono(p, q - 1, x);
    }
  }

  lemma {:induction false} PlaceSums(n: nat, t: nat)
    requires t > 0
    ensures n == Times(Rounds(n, t), t) + Place(n, t)
  {
    if n > 0 {
      PlaceSums(n - 1, t);
      TimesMore(Rounds(n - 1, t), t);
      hide Times;
    }
  }

  lemma QuotientUnique(t: nat, q: nat, r: nat, q': nat, r': nat)
    requires r < t && r' < t && Times(q, t) + r == Times(q', t) + r'
    ensures q == q' && r == r'
  {
    TimesMore(q, t);
    TimesMore(q', t);
    hide Times;
    if q < q' { TimesMono(q + 1, q', t); } else if q' < q { TimesMono(q' + 1, q, t); }
  }

  lemma PlaceExact(n: nat, t: nat)
    requires t > 0
    ensures Place(n, t) == n % t && Rounds(n, t) == n / t
  {
    PlaceSums(n, t);
    var q, r := n / t, n % t;
    assert n == Times(q, t) + r;
    hide Times, Place, Rounds;
    QuotientUnique(t, Rounds(n, t), Place(n, t), q, r);
  }

  lemma NextPlace(k: nat, t: nat)
    requires k < t
    ensures (k + 1) % t == if k + 1 == t then 0 else k + 1
  {
  }

  lemma {:induction false} PlaceSmall(n: nat, t: nat)
    requires n < t
    ensures Place(n, t) == n && Rounds(n, t) == 0
  {
    if n > 0 { PlaceSmall(n - 1, t); }
  }

  lemma PlaceLater(n: nat, t: nat)
    requires t > 0
    ensures Place(n + t, t) == Place(n, t) && Rounds(n + t, t) == Rounds(n, t) + 1
  {
    PlaceSums(n, t);
    PlaceSums(n + t, t);
    TimesMore(Rounds(n, t), t);
    hide Times, Place, Rounds;
    QuotientUnique(t, Rounds(n + t, t), Place(n + t, t), Rounds(n, t) + 1, Place(n, t));
  }

  /** While the zeros are still to come, the wheel shows the bisect choice. */
  lemma TurnFollows(w: seq<nat>, k: nat)
    requires k < Total(w)
    requires var i := Choice(w, k); i + 1 < |w| ==> w[i + 1] > 0 || Prefix(w, i + 1) == Total(w)
    requires k + 1 == Total(w) ==> Choice(w, 0) == 0
    ensures var z := if k + 1 == Total(w) then 0 else k + 1; Turn(w, Wheel(k, Choice(w, k))) == Wheel(z, Choice(w, z))
  {
    var i := Choice(w, k);
    if k + 1 < Total(w) {
      if k + 1 >= Prefix(w, i + 1) {
        assert i + 1 < |w|;
        ChoiceUnique(w, k + 1, i + 1);
      } else {
        ChoiceUnique(w, k + 1, i);
      }
    }
  }

  lemma FirstChoice(w: seq<nat>)
    requires Total(w) > 0 && w[0] > 0
    ensures Choice(w, 0) == 0
  {
    assert Prefix(w, 1) == Prefix(w, 0) + w[0];
    PrefixMono(w, 1, |w|);
    ChoiceUnique(w, 0, 0);
  }

  lemma {:induction false} NoneBehind(w: seq<nat>, i: nat, j: nat)
    requires i <= j <= |w| && forall k | i <= k < j :: w[k] == 0
    ensures Prefix(w, i) == Prefix(w, j)
    decreases j
  {
    if i < j { NoneBehind(w, i, j - 1); }
  }

  /** The refinement: the n-th call of the incremental scheduler chooses what bisecting the
      cumulative weights chooses. */
  lemma {:induction false} TurnedExact(w: seq<nat>, n: nat)
    requires Total(w) > 0 && ZerosLast(w)
    ensures Turned(w, n) == Wheel(Place(n, Total(w)), Choice(w, Place(n, Total(w))))
    decreases n
  {
    hide Prefix, Choice, Turn;
    ZerosAtEnd(w, 0);
    FirstChoice(w);
    if n > 0 {
      TurnedExact(w, n - 1);
      var i := Choice(w, Place(n - 1, Total(w))) + 1;
      if i < |w| { ZerosAtEnd(w, i); }
      TurnFollows(w, Place(n - 1, Total(w)));
    }
  }

  lemma ZerosAtEnd(w: seq<nat>, i: nat)
    requires Total(w) > 0 && ZerosLast(w) && i <= |w|
    ensures i < |w| && w[i] == 0 ==> i > 0 && Prefix(w, i) == Total(w)
    ensures w != [] && (i == 0 ==> w[0] > 0)
  {
    if i < |w| && w[i] == 0 { NoneBehind(w, i, |w|); }
  }

  lemma PrefixMore(w: seq<nat>, i: nat)
    requires i < |w|
    ensures Prefix(w, i + 1) == Prefix(w, i) + w[i]
  {
  }

  /** The same for the first calls of a run, as long as the weights in front are positive. */
  lemma {:induction false} FrontExact(w: seq<nat>, z: nat, n: nat)
    requires 0 < z < |w| && (forall i | 0 <= i < z :: w[i] > 0) && n < Prefix(w, z) < Total(w)
    ensures Turned(w, n) == Wheel(n, Choice(w, n)) && Choice(w, n) < z
    decreases n
  {
    hide Prefix, Choice;
    if Choice(w, n) >= z { PrefixMono(w, z, Choice(w, n)); }
    if n == 0 {
      FirstChoice(w);
    } else {
      FrontExact(w, z, n - 1);
      var i := Choice(w, n - 1);
      if i + 1 >= z {
        assert i + 1 == z;
        ChoiceUnique(w, n, i);
      } else {
        TurnFollows(w, n - 1);
      }
    }
  }

  /** A weight 0 has no share. */
  lemma NoShare(w: seq<nat>, z: nat, k: nat)
    requires z < |w| && w[z] == 0 && k < Total(w)
    ensures Choice(w, k) != z
  {
    assert Prefix(w, z + 1) == Prefix(w, z) + w[z];
  }

  lemma MoreToCome(w: seq<nat>, z: nat, p: nat)
    requires z < p < |w| && w[p] > 0
    ensures Prefix(w, z) < Total(w)
  {
    PrefixMono(w, z, p);
    PrefixMono(w, p + 1, |w|);
    assert Prefix(w, p + 1) == Prefix(w, p) + w[p];
  }

  /** With a zero in front of a positive weight the wheel stops at it once. */
  lemma ZeroIsChosen(w: seq<nat>, z: nat, p: nat)
    requires z < p < |w| && w[z] == 0 && w[p] > 0 && forall i | 0 <= i < z :: w[i] > 0
    ensures var n := Prefix(w, z); n < Total(w) && Turned(w, n).rv == z && Choice(w, n) != z
  {
    MoreToCome(w, z, p);
    NoShare(w, z, Prefix(w, z));
    if z > 0 { IntoZero(w, z); } else { AtStart(w); }
  }

  lemma AtStart(w: seq<nat>)
    requires Total(w) > 0
    ensures Turned(w, 0) == Wheel(0, 0)
  {
  }

  lemma IntoZero(w: seq<nat>, z: nat)
    requires 0 < z < |w| && Prefix(w, z) < Total(w) && forall i | 0 <= i < z :: w[i] > 0
    ensures Turned(w, Prefix(w, z)).rv == z
  {
    hide Turned, Turn, Choice;
    var n := Prefix(w, z);
    BeforeZero(w, z);
    FrontExact(w, z, n - 1);
    TurnedMore(w, n);
    TurnIntoNext(w, z);
  }

  lemma BeforeZero(w: seq<nat>, z: nat)
    requires 0 < z < |w| && Prefix(w, z) < Total(w) && w[z - 1] > 0
    ensures Prefix(w, z) > 0 && Choice(w, Prefix(w, z) - 1) == z - 1
  {
    assert Prefix(w, z) == Prefix(w, z - 1) + w[z - 1];
    ChoiceUnique(w, Prefix(w, z) - 1, z - 1);
  }

  lemma TurnedMore(w: seq<nat>, n: nat)
    requires n > 0 && Total(w) > 0
    ensures Turned(w, n) == Turn(w, Turned(w, n - 1))
  {
  }

  lemma TurnIntoNext(w: seq<nat>, z: nat)
    requires 0 < z < |w| && 0 < Prefix(w, z) < Total(w)
    ensures Turn(w, Wheel(Prefix(w, z) - 1, z - 1)).rv == z
  {
    hide Prefix;
  }

  /** The two schedulers agree on every call exactly when no weight 0 stands before a
      positive one (sorting by descending weight sees to that). */
  lemma SchedulersAgree(w: seq<nat>)
    requires Total(w) > 0
    ensures ZerosLast(w) <==> forall n: nat :: Turned(w, n).rv == Choice(w, n % Total(w))
  {
    hide Turned, Choice, Prefix;
    if ZerosLast(w) {
      forall n: nat ensures Turned(w, n).rv == Choice(w, n % Total(w)) {
        TurnedExact(w, n);
        PlaceExact(n, Total(w));
      }
    } else {
      var i, p :| 0 <= i < p < |w| && w[p] > 0 && w[i] == 0;
      var z := FirstZero(w, i);
      ZeroIsChosen(w, z, p);
      var n := Prefix(w, z);
      PlaceSmall(n, Total(w));
      PlaceExact(n, Total(w));
      assert Turned(w, n).rv != Choice(w, n % Total(w));
    }
  }

  lemma {:induction false} FirstZero(w: seq<nat>, i: nat) returns (z: nat)
    requires i < |w| && w[i] == 0
    ensures z <= i && w[z] == 0 && forall k | 0 <= k < z :: w[k] > 0
    decreases i
  {
    if k: nat :| k < i && w[k] == 0 { z := FirstZero(w, k); } else { z := i; }
  }

  /** A weight 0 in front of a weight 1 is chosen on every call, although its share is 0. */
  lemma {:induction false} ZeroFirstExample(n: nat)
    ensures Total([0, 1]) == 1 && Turned([0, 1], n) == Wheel(0, 0) && Choice([0, 1], n % 1) == 1
    decreases n
  {
    var w := [0, 1];
    assert Prefix(w, 1) == 0 && Prefix(w, 2) == 1;
    ChoiceUnique(w, 0, 1);
    if n > 0 {
      ZeroFirstExample(n - 1);
      TurnedMore(w, n);
    }
  }

  // ---------------------------------------------------------------- fairness

  /** How often endpoint `i` is chosen in the first `n` calls. */
  function Count(w: seq<nat>, i: nat, n: nat): nat
    requires Total(w) > 0
  {
    if n == 0 then 0 else Count(w, i, n - 1) + if Choice(w, Place(n - 1, Total(w))) == i then 1 else 0
  }

  function Clamp(x: int, hi: nat): nat {
    if x < 0 then 0 else if x > hi then hi else x
  }

  /** The share of an endpoint after `n` calls: its weight for every full round, and what
      the current round has reached of it. */
  function Share(w: seq<nat>, i: nat, n: nat): nat
    requires Total(w) > 0 && i < |w|
  {
    n / Total(w) * w[i] + Clamp(n % Total(w) - Prefix(w, i), w[i])
  }

  /** What one more call adds to the share of the current round. */
  lemma ShareStep(w: seq<nat>, i: nat, k: nat)
    requires k < Total(w) && i < |w|
    ensures var x := Clamp(k - Prefix(w, i), w[i]) + if Choice(w, k) == i then 1 else 0;
        x == if k + 1 == Total(w) then w[i] else Clamp(k + 1 - Prefix(w, i), w[i])
  {
    hide Choice;
    PrefixMono(w, i + 1, |w|);
    PrefixMore(w, i);
    hide Prefix;
    if Prefix(w, i) <= k < Prefix(w, i + 1) { ChoiceUnique(w, k, i); }
  }

  lemma {:induction false} CountInRounds(w: seq<nat>, i: nat, n: nat)
    requires Total(w) > 0 && i < |w|
    ensures Count(w, i, n) == Times(Rounds(n, Total(w)), w[i]) + Clamp(Place(n, Total(w)) - Prefix(w, i), w[i])
    decreases n
  {
    hide Times, Prefix, Choice;
    NoTimes(w[i]);
    if n > 0 {
      CountInRounds(w, i, n - 1);
      ShareStep(w, i, Place(n - 1, Total(w)));
      TimesMore(Rounds(n - 1, Total(w)), w[i]);
    }
  }

  /** Every endpoint has its exact share after any number of calls. */
  lemma CountExact(w: seq<nat>, i: nat, n: nat)
    requires Total(w) > 0 && i < |w|
    ensures Count(w, i, n) == Share(w, i, n)
  {
    CountInRounds(w, i, n);
    PlaceExact(n, Total(w));
    hide Count, Place, Rounds, Prefix;
  }

  /** Any `Total` calls in a row, wherever they start, give each endpoint its weight. */
  lemma WindowExact(w: seq<nat>, i: nat, m: nat)
    requires Total(w) > 0 && i < |w|
    ensures Count(w, i, m + Total(w)) == Count(w, i, m) + w[i]
  {
    hide Count, Times, Place, Rounds, Prefix;
    CountInRounds(w, i, m);
    CountInRounds(w, i, m + Total(w));
    PlaceLater(m, Total(w));
    TimesMore(Rounds(m, Total(w)), w[i]);
  }

  /** The endpoints that the first `n` turns of the wheel give. */
  function Served(w: seq<nat>, n: nat): (s: seq<nat>)
    requires Total(w) > 0
    ensures |s| == n
  {
    if n == 0 then [] else Served(w, n - 1) + [Turned(w, n - 1).rv]
  }

  function Tally(s: seq<nat>, i: nat): nat {
    if s == [] then 0 else Tally(s[..|s| - 1], i) + if s[|s| - 1] == i then 1 else 0
  }

  lemma TallyMore(s: seq<nat>, x: nat, i: nat)
    ensures Tally(s + [x], i) == Tally(s, i) + if x == i then 1 else 0
  {
    assert (s + [x])[..|s|] == s;
  }

  lemma {:induction false} ServedCounts(w: seq<nat>, i: nat, n: nat)
    requires Total(w) > 0 && ZerosLast(w)
    ensures Tally(Served(w, n), i) == Count(w, i, n)
    decreases n
  {
    hide Turned, Choice, Place, Prefix, Tally, ZerosLast;
    if n > 0 {
      ServedCounts(w, i, n - 1);
      TurnedExact(w, n - 1);
      TallyMore(Served(w, n - 1), Turned(w, n - 1).rv, i);
    } else {
      NothingTallied(i);
    }
  }

  lemma NothingTallied(i: nat)
    ensures Tally([], i) == 0
  {
  }

  lemma ServedShare(w: seq<nat>, i: nat, n: nat)
    requires Total(w) > 0 && ZerosLast(w) && i < |w|
    ensures Tally(Served(w, n), i) == Share(w, i, n)
  {
    hide *;
    ServedCounts(w, i, n);
    CountExact(w, i, n);
  }

  lemma ServedShares(w: seq<nat>, n: nat)
    requires Total(w) > 0 && ZerosLast(w)
    ensures var s := Served(w, n); forall i | 0 <= i < |w| :: Tally(s, i) == Share(w, i, n)
  {
    forall i | 0 <= i < |w| ensures Tally(Served(w, n), i) == Share(w, i, n) { ServedShare(w, i, n); }
  }

  /** The share of a weight 0 is nothing. */
  lemma ShareOfZero(w: seq<nat>, z: nat, n: nat)
    requires Total(w) > 0 && z < |w| && w[z] == 0
    ensures Share(w, z, n) == 0
  {
    hide Prefix;
  }

  /** The incremental scheduler gives every endpoint its exact share after any number of
      calls, exactly when no weight 0 stands before a positive one. */
  lemma SharesExact(w: seq<nat>)
    requires Total(w) > 0
    ensures ZerosLast(w) <==> forall i: nat, n: nat | i < |w| :: Tally(Served(w, n), i) == Share(w, i, n)
  {
    hide Turned, Choice, Prefix, Share, Tally, Served;
    if ZerosLast(w) {
      forall i: nat, n: nat | i < |w| ensures Tally(Served(w, n), i) == Share(w, i, n) { ServedShare(w, i, n); }
    } else {
      var i, p :| 0 <= i < p < |w| && w[p] > 0 && w[i] == 0;
      var z := FirstZero(w, i);
      ZeroIsChosen(w, z, p);
      var n := Prefix(w, z);
      ServedMore(w, n);
      TallyMore(Served(w, n), Turned(w, n).rv, z);
      ShareOfZero(w, z, n + 1);
      assert Tally(Served(w, n + 1), z) != Share(w, z, n + 1);
    }
  }

  lemma ServedMore(w: seq<nat>, n: nat)
    requires Total(w) > 0
    ensures Served(w, n + 1) == Served(w, n) + [Turned(w, n).rv]
  {
  }

  // ---------------------------------------------------------------- the C++ scheduler

  const MAX_EDS := 10
  const INT_MAX := 0x7fff_ffff

  datatype Entry = Entry(host: string, port: int, weight: nat)

  function WeightsOf(es: seq<Entry>): (w: seq<nat>)
    ensures |w| == |es| && forall i | 0 <= i < |es| :: w[i] == es[i].weight
  {
    if es == [] then [] else WeightsOf(es[..|es| - 1]) + [es[|es| - 1].weight]
  }

  class EtcdLb {
    const ends: array<Entry>
    const rate: array<nat>
    var ecnt: nat
    var rv: nat
    var prev: nat
    var maxSum: nat
    ghost var served: seq<nat>   // by NextIdx since InitRate

    constructor ()
      ensures fresh(ends) && fresh(rate) && Valid() && ecnt == 0 && ends.Length == 10
    {
      ends := new Entry[MAX_EDS](_ => Entry("", 0, 0));
      rate := new nat[MAX_EDS](_ => 0);
      ecnt, rv, prev, maxSum, served := 0, 0, 0, 0, [];
    }

    ghost predicate Valid()
      reads this
    {
      ends.Length == MAX_EDS && rate.Length == MAX_EDS && ecnt <= MAX_EDS
    }

    ghost function Entries(): seq<Entry>
      requires Valid()
      reads this, ends
    {
      ends[..ecnt]
    }

    ghost function Weights(): seq<nat>
      requires Valid()
      reads this, ends
    {
      WeightsOf(Entries())
    }

    /** Initialised: the cumulative weights are there, and the wheel has made its turns. */
    ghost predicate Running()
      reads this, ends, rate
    {
      && Valid() && maxSum == Total(Weights()) && 0 < maxSum <= INT_MAX
      && rate[..ecnt] == Rate(Weights()) && Wheel(prev, rv) == Turned(Weights(), |served|)
      && served == Served(Weights(), |served|)
    }

    method Insert(host: string, port: int, weight: nat)
      requires Valid() && ecnt < MAX_EDS
      modifies this, ends
      ensures Valid() && Entries() == old(Entries()) + [Entry(host, port, weight)]
    {
      ends[ecnt] := Entry(host, port, weight);
      ecnt := ecnt + 1;
    }

    method InitRate()
      requires Valid() && 0 < Total(Weights()) <= INT_MAX
      modifies this, rate
      ensures Running() && served == [] && Entries() == old(Entries())
    {
      ghost var w := Weights();
      rate[0] := ends[0].weight;
      assert Prefix(w, 1) == Prefix(w, 0) + w[0];
      for i := 1 to ecnt
        invariant Valid() && ecnt == old(ecnt) && Weights() == w && 1 <= ecnt
        invariant forall j | 0 <= j < i :: rate[j] == Prefix(w, j + 1)
      {
        rate[i] := rate[i - 1] + ends[i].weight;
      }
      maxSum := rate[ecnt - 1];
      rv, prev, served := 0, 0, [];
    }

    /** The n-th call turns the wheel once; with sorted weights it returns the bisect choice,
        and every endpoint has had its exact share so far. */
    method NextIdx() returns (res: nat)
      requires Running()
      modifies `rv, `prev, `served
      ensures Running() && served == old(served) + [res]
      ensures res == Turned(Weights(), old(|served|)).rv < ecnt
      ensures ZerosLast(Weights()) ==> res == Choice(Weights(), Place(old(|served|), maxSum))
      ensures ZerosLast(Weights()) ==> forall i | 0 <= i < ecnt :: Tally(served, i) == Share(Weights(), i, |served|)
    {
      hide Choice, Place, ZerosLast, WeightsOf, Tally, Share, Prefix, Rate, Served, Turned;
      ghost var w := Weights();
      RateAt(w, rv);
      assert rate[..ecnt][rv] == Prefix(w, rv + 1);
      if ZerosLast(w) {
        TurnedExact(w, |served|);
        ServedShares(w, |served| + 1);
      }
      ServedMore(w, |served|);
      TurnedMore(w, |served| + 1);
      NextPlace(prev, maxSum);
      NextPlace(rv, ecnt);
      res := rv;
      prev := (prev + 1) % maxSum;
      if prev == 0 {
        rv := 0;
      } else if prev >= rate[rv] {
        rv := (rv + 1) % ecnt;
      }
      served := served + [res];
    }
  }

  // ---------------------------------------------------------------- the Java scheduler

  class JavaLb {
    var rate: seq<nat>
    var prev: nat
    var maxSum: nat
    var idx: nat
    ghost const weights: seq<nat>
    ghost var served: seq<nat>

    ghost predicate Running()
      reads this
    {
      && maxSum == Total(weights) && 0 < maxSum <= INT_MAX
      && rate == Rate(weights) && Wheel(prev, idx) == Turned(weights, |served|)
      && served == Served(weights, |served|)
    }

    /** From the weights in their sorted order. */
    constructor (w: seq<nat>)
      requires 0 < Total(w) <= INT_MAX
      ensures Running() && weights == w && served == []
    {
      weights, prev, idx, served, rate := w, 0, 0, [], [];
      var pre, r := 0, [];
      for i := 0 to |w|
        invariant pre == Prefix(w, i) && |r| == i && forall j | 0 <= j < i :: r[j] == Prefix(w, j + 1)
      {
        r := r + [pre + w[i]];
        pre := pre + w[i];
      }
      maxSum, rate := pre, r;
    }

    method Choose() returns (res: nat)
      requires Running()
      modifies `prev, `idx, `served
      ensures Running() && served == old(served) + [res]
      ensures res == Turned(weights, old(|served|)).rv < |weights|
      ensures ZerosLast(weights) ==> res == Choice(weights, Place(old(|served|), maxSum))
      ensures ZerosLast(weights) ==> forall i | 0 <= i < |weights| :: Tally(served, i) == Share(weights, i, |served|)
    {
      hide Choice, Place, ZerosLast, Tally, Share, Prefix, Rate, Served, Turned;
      RateAt(weights, idx);
      if ZerosLast(weights) {
        TurnedExact(weights, |served|);
        ServedShares(weights, |served| + 1);
      }
      ServedMore(weights, |served|);
      TurnedMore(weights, |served| + 1);
      NextPlace(prev, maxSum);
      NextPlace(idx, |rate|);
      res := idx;
      prev := (prev + 1) % maxSum;
      if prev == 0 {
        idx := 0;
      } else if prev >= rate[idx] {
        idx := (idx + 1) % |rate|;
      }
      served := served + [res];
    }
  }

  // ---------------------------------------------------------------- the Python scheduler

  class EndPoints {
    var rate: seq<nat>
    var prev: nat
    var maxSum: nat
    var cntMap: seq<nat>
    ghost const weights: seq<nat>
    ghost var calls: nat

    ghost predicate Running()
      reads this
    {
      && maxSum == Total(weights) > 0 && rate == Rate(weights) && prev == Place(calls, maxSum)
      && |cntMap| == |weights| && forall i | 0 <= i < |weights| :: cntMap[i] == Count(weights, i, calls)
    }

    constructor (w: seq<nat>)
      requires Total(w) > 0
      ensures Running() && weights == w && calls == 0
    {
      weights, prev, calls := w, 0, 0;
      rate := Rate(w);
      maxSum := Rate(w)[|w| - 1];
      cntMap := seq(|w|, _ => 0);
    }

    /** The choice, counted: every endpoint has had its exact share so far. */
    method Choose() returns (res: nat)
      requires Running()
      modifies `prev, `cntMap, `calls
      ensures Running() && calls == old(calls) + 1
      ensures res == Choice(weights, Place(old(calls), maxSum))
      ensures forall i | 0 <= i < |weights| ::
          cntMap[i] == Share(weights, i, calls)
    {
      PlaceExact(calls, maxSum);
      PlaceExact(calls + 1, maxSum);
      res := BisectLeft(rate, prev + 1);
      assert res == Choice(weights, prev);
      cntMap := cntMap[res := cntMap[res] + 1];
      NextPlace(prev, maxSum);
      prev := (prev + 1) % maxSum;
      calls := calls + 1;
      forall i | 0 <= i < |weights| ensures cntMap[i] == Share(weights, i, calls) { CountExact(weights, i, calls); }
    }
  }
}
