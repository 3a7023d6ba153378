/**
 When in-place sorting of two slices of one array is harmless.

 IngressRule.Equals sorts the lists of both rules in place.  Two slices of one backing array keep
 what they hold, for every content, exactly when they are apart or the same.
 */
module SliceOverlap {
  import opened StringSorting

  /** The array after sort.Strings on the window [lo, hi). */
  function SortWindow(a: seq<string>, lo: nat, hi: nat): (r: seq<string>)
    requires lo <= hi <= |a|
    ensures |r| == |a|
  {
    Overwritten(a, lo, Sorted(a[lo..hi]))
  }

  function SortTwo(a: seq<string>, lo1: nat, hi1: nat, lo2: nat, hi2: nat): (r: seq<string>)
    requires lo1 <= hi1 <= |a| && lo2 <= hi2 <= |a|
    ensures |r| == |a|
  {
    SortWindow(SortWindow(a, lo1, hi1), lo2, hi2)
  }

  /** Both windows hold the same strings as before. */
  predicate BothKept(a: seq<string>, lo1: nat, hi1: nat, lo2: nat, hi2: nat)
    requires lo1 <= hi1 <= |a| && lo2 <= hi2 <= |a|
  {
    var r := SortTwo(a, lo1, hi1, lo2, hi2);
    multiset(r[lo1..hi1]) == multiset(a[lo1..hi1]) && multiset(r[lo2..hi2]) == multiset(a[lo2..hi2])
  }

  /** The windows share no position, or all of them. */
  predicate ApartOrSame(lo1: nat, hi1: nat, lo2: nat, hi2: nat) {
    hi1 <= lo2 || hi2 <= lo1 || lo1 == hi1 || lo2 == hi2 || (lo1 == lo2 && hi1 == hi2)
  }

  lemma WindowKept(a: seq<string>, lo: nat, hi: nat, tlo: nat, thi: nat)
    requires lo <= hi <= |a| && tlo <= thi <= |a|
    requires ApartOrSame(lo, hi, tlo, thi)
    ensures multiset(SortWindow(a, lo, hi)[tlo..thi]) == multiset(a[tlo..thi])
  {
    WindowAfter(a, lo, Sorted(a[lo..hi]), tlo, thi - tlo);
  }

  lemma ApartKept(a: seq<string>, lo1: nat, hi1: nat, lo2: nat, hi2: nat)
    requires lo1 <= hi1 <= |a| && lo2 <= hi2 <= |a|
    requires ApartOrSame(lo1, hi1, lo2, hi2)
    ensures BothKept(a, lo1, hi1, lo2, hi2)
  {
    var b := SortWindow(a, lo1, hi1);
    WindowKept(a, lo1, hi1, lo1, hi1);
    WindowKept(a, lo1, hi1, lo2, hi2);
    WindowKept(b, lo2, hi2, lo1, hi1);
    WindowKept(b, lo2, hi2, lo2, hi2);
  }

  // ---------------------------------------------------------------------------------------------
  // Overlapping windows lose elements
  // ---------------------------------------------------------------------------------------------

  /** All x, except y at position p. */
  function Spike(n: nat, x: string, y: string, p: nat): (r: seq<string>)
    requires p < n
    ensures |r| == n && forall i | 0 <= i < n :: r[i] == if i == p then y else x
  {
    seq(n, i => if i == p then y else x)
  }

  lemma SpikeMultiset(n: nat, x: string, y: string, p: nat, q: nat)
    requires p < n && q < n
    ensures multiset(Spike(n, x, y, p)) == multiset(Spike(n, x, y, q))
  {
    var a, b := Spike(n, x, y, p), Spike(n, x, y, q);
    assert b == a[p := x][q := y];
  }

  /** The place sorting moves the spike to: the end if it is large, the front if it is small. */
  predicate Settled(n: nat, x: string, y: string, p: nat) {
    (p == n - 1 && Leq(x, y)) || (p == 0 && Leq(y, x))
  }

  lemma SpikeOrdered(n: nat, x: string, y: string, p: nat)
    requires p < n && Settled(n, x, y, p)
    ensures Ordered(Spike(n, x, y, p))
  {
    LeqTotal(x, x);
  }

  lemma SortWindowIs(a: seq<string>, lo: nat, hi: nat, w: seq<string>)
    requires lo <= hi <= |a| && |w| == hi - lo && Ordered(w) && multiset(w) == multiset(a[lo..hi])
    ensures SortWindow(a, lo, hi) == Overwritten(a, lo, w)
  {
    OrderedUnique(Sorted(a[lo..hi]), w);
  }

  /** A window holds the spike exactly when it covers it. */
  lemma SpikeSeen(n: nat, x: string, y: string, p: nat, lo: nat, hi: nat)
    requires p < n && lo <= hi <= n && x != y
    ensures y in multiset(Spike(n, x, y, p)[lo..hi]) <==> lo <= p < hi
  {
    var spike := Spike(n, x, y, p);
    var w := spike[lo..hi];
    if lo <= p < hi {
      assert spike[p] == y && w[p - lo] == spike[lo + (p - lo)];
    }
    forall k | 0 <= k < |w|
      ensures w[k] == spike[lo + k]
    {}
  }

  lemma SpikeCut(n: nat, x: string, y: string, p: nat, lo: nat, hi: nat)
    requires p < n && lo <= p < hi <= n
    ensures Spike(n, x, y, p)[lo..hi] == Spike(hi - lo, x, y, p - lo)
  {
    var w, small := Spike(n, x, y, p)[lo..hi], Spike(hi - lo, x, y, p - lo);
    forall k | 0 <= k < hi - lo
      ensures w[k] == small[k]
    {
      assert w[k] == Spike(n, x, y, p)[lo + k];
    }
  }

  lemma SpikeMoved(n: nat, x: string, y: string, p: nat, lo: nat, hi: nat, q: nat)
    requires p < n && lo <= p < hi <= n && lo <= q < hi
    ensures Overwritten(Spike(n, x, y, p), lo, Spike(hi - lo, x, y, q - lo)) == Spike(n, x, y, q)
  {
    var a, w := Spike(n, x, y, p), Spike(hi - lo, x, y, q - lo);
    forall k | 0 <= k < n
      ensures Overwritten(a, lo, w)[k] == Spike(n, x, y, q)[k]
    {
      OverwrittenAt(a, lo, w, k);
    }
  }

  /** Sorting a window that covers the spike moves it to its place in the window. */
  lemma SortCovering(n: nat, x: string, y: string, p: nat, lo: nat, hi: nat, q: nat)
    requires p < n && lo <= p < hi <= n && lo <= q < hi && Settled(hi - lo, x, y, q - lo)
    ensures SortWindow(Spike(n, x, y, p), lo, hi) == Spike(n, x, y, q)
  {
    SpikeCut(n, x, y, p, lo, hi);
    SpikeMoved(n, x, y, p, lo, hi, q);
    SpikeMultiset(hi - lo, x, y, p - lo, q - lo);
    SpikeOrdered(hi - lo, x, y, q - lo);
    SortWindowIs(Spike(n, x, y, p), lo, hi, Spike(hi - lo, x, y, q - lo));
  }

  /** Sorting a window that misses the spike changes nothing. */
  lemma SortMissing(n: nat, x: string, y: string, p: nat, lo: nat, hi: nat)
    requires p < n && lo <= hi <= n && !(lo <= p < hi)
    ensures SortWindow(Spike(n, x, y, p), lo, hi) == Spike(n, x, y, p)
  {
    var a := Spike(n, x, y, p);
    var w := a[lo..hi];
    forall k | 0 <= k < |w|
      ensures w[k] == x
    {
      assert w[k] == a[lo + k];
    }
    LeqTotal(x, x);
    SortWindowIs(a, lo, hi, w);
    forall k | 0 <= k < n
      ensures Overwritten(a, lo, w)[k] == a[k]
    {
      OverwrittenAt(a, lo, w, k);
    }
  }

  /** A spike both windows see, which ends where only one of them does. */
  lemma SpikeTorn(n: nat, x: string, y: string, p: nat, q: nat, lo1: nat, hi1: nat, lo2: nat, hi2: nat)
    requires x != y && q < n && lo1 <= p < hi1 <= n && lo2 <= p < hi2 <= n
    requires SortTwo(Spike(n, x, y, p), lo1, hi1, lo2, hi2) == Spike(n, x, y, q)
    requires !(lo1 <= q < hi1) || !(lo2 <= q < hi2)
    ensures !BothKept(Spike(n, x, y, p), lo1, hi1, lo2, hi2)
  {
    SpikeSeen(n, x, y, p, lo1, hi1);
    SpikeSeen(n, x, y, p, lo2, hi2);
    SpikeSeen(n, x, y, q, lo1, hi1);
    SpikeSeen(n, x, y, q, lo2, hi2);
  }

  /** The spike settles in the first window and then in the second. */
  lemma TornSecond(n: nat, x: string, y: string, q1: nat, q2: nat, lo1: nat, hi1: nat, lo2: nat, hi2: nat)
    requires x != y && lo1 <= q1 < hi1 <= n && lo2 <= q1 < hi2 <= n && lo2 <= q2 < hi2
    requires Settled(hi1 - lo1, x, y, q1 - lo1) && Settled(hi2 - lo2, x, y, q2 - lo2) && !(lo1 <= q2 < hi1)
    ensures !BothKept(Spike(n, x, y, q1), lo1, hi1, lo2, hi2)
  {
    SortCovering(n, x, y, q1, lo1, hi1, q1);
    SortCovering(n, x, y, q1, lo2, hi2, q2);
    SpikeTorn(n, x, y, q1, q2, lo1, hi1, lo2, hi2);
  }

  /** The spike settles in the first window, outside the second. */
  lemma TornFirst(n: nat, x: string, y: string, p: nat, q: nat, lo1: nat, hi1: nat, lo2: nat, hi2: nat)
    requires x != y && lo1 <= p < hi1 <= n && lo2 <= p < hi2 <= n && lo1 <= q < hi1
    requires Settled(hi1 - lo1, x, y, q - lo1) && !(lo2 <= q < hi2)
    ensures !BothKept(Spike(n, x, y, p), lo1, hi1, lo2, hi2)
  {
    SortCovering(n, x, y, p, lo1, hi1, q);
    SortMissing(n, x, y, q, lo2, hi2);
    SpikeTorn(n, x, y, p, q, lo1, hi1, lo2, hi2);
  }

  /** If the windows overlap without being the same, some content is torn between them. */
  lemma OverlapLoses(n: nat, lo1: nat, hi1: nat, lo2: nat, hi2: nat, x: string, y: string)
    requires lo1 <= hi1 <= n && lo2 <= hi2 <= n && !ApartOrSame(lo1, hi1, lo2, hi2)
    requires x != y && Leq(x, y)
    ensures exists a: seq<string> | |a| == n :: !BothKept(a, lo1, hi1, lo2, hi2)
  {
    if hi1 < hi2 {
      TornSecond(n, x, y, hi1 - 1, hi2 - 1, lo1, hi1, lo2, hi2);
    } else if hi2 < hi1 {
      TornFirst(n, x, y, hi2 - 1, hi1 - 1, lo1, hi1, lo2, hi2);
    } else if lo2 < lo1 {
      TornSecond(n, y, x, lo1, lo2, lo1, hi1, lo2, hi2);
    } else {
      TornFirst(n, y, x, lo2, lo1, lo1, hi1, lo2, hi2);
    }
  }

  /** Sorting both windows is harmless for every content if and only if they are apart or the same. */
  lemma HarmlessIff(n: nat, lo1: nat, hi1: nat, lo2: nat, hi2: nat)
    requires lo1 <= hi1 <= n && lo2 <= hi2 <= n
    ensures (forall a: seq<string> | |a| == n :: BothKept(a, lo1, hi1, lo2, hi2)) <==> ApartOrSame(lo1, hi1, lo2, hi2)
  {
    if ApartOrSame(lo1, hi1, lo2, hi2) {
      forall a: seq<string> | |a| == n
        ensures BothKept(a, lo1, hi1, lo2, hi2)
      {
        ApartKept(a, lo1, hi1, lo2, hi2);
      }
    } else {
      OverlapLoses(n, lo1, hi1, lo2, hi2, "", "a");
    }
  }
}
