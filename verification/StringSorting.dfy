/** sort.Strings: the order on strings, the sorted list, and sorting part of an array in place. */
module StringSorting {

  /** Go's order on strings. */
  predicate Leq(a: string, b: string) {
    a == [] || (b != [] && (a[0] < b[0] || (a[0] == b[0] && Leq(a[1..], b[1..]))))
  }

  lemma {:induction false} LeqTotal(a: string, b: string)
    ensures Leq(a, b) || Leq(b, a)
  {
    if a != [] && b != [] && a[0] == b[0] {
      LeqTotal(a[1..], b[1..]);
    }
  }

  lemma {:induction false} LeqAntisymmetric(a: string, b: string)
    requires Leq(a, b) && Leq(b, a)
    ensures a == b
  {
    if a != [] && b != [] {
      LeqAntisymmetric(a[1..], b[1..]);
      assert a == [a[0]] + a[1..] && b == [b[0]] + b[1..];
    }
  }

  lemma {:induction false} LeqTransitive(a: string, b: string, c: string)
    requires Leq(a, b) && Leq(b, c)
    ensures Leq(a, c)
  {
    if a != [] && a[0] == b[0] && b[0] == c[0] {
      LeqTransitive(a[1..], b[1..], c[1..]);
    }
  }

  predicate Ordered(s: seq<string>) {
    forall i, j | 0 <= i < j < |s| :: Leq(s[i], s[j])
  }

  function Insert(x: string, s: seq<string>): (r: seq<string>)
    requires Ordered(s)
    ensures multiset(r) == multiset(s) + multiset{x} && |r| == |s| + 1
    ensures Ordered(r)
  {
    if s == [] then [x]
    else if Leq(x, s[0]) then
      PrependOrdered(x, s);
      assert multiset([x] + s) == multiset(s) + multiset{x};
      [x] + s
    else
      var rest := Insert(x, s[1..]);
      InsertOrdered(x, s, rest);
      assert s == [s[0]] + s[1..];
      assert multiset([s[0]] + rest) == multiset{s[0]} + multiset(rest);
      [s[0]] + rest
  }

  lemma PrependOrdered(x: string, s: seq<string>)
    requires s != [] && Ordered(s) && Leq(x, s[0])
    ensures Ordered([x] + s)
  {
    forall i, j | 0 <= i < j < |[x] + s|
      ensures Leq(([x] + s)[i], ([x] + s)[j])
    {
      if i == 0 && j > 1 {
        LeqTransitive(x, s[0], s[j - 1]);
      }
    }
  }

  lemma InsertOrdered(x: string, s: seq<string>, rest: seq<string>)
    requires s != [] && Ordered(s) && !Leq(x, s[0]) && Ordered(rest)
    requires multiset(rest) == multiset(s[1..]) + multiset{x}
    ensures Ordered([s[0]] + rest)
  {
    LeqTotal(x, s[0]);
    forall j | 0 <= j < |rest|
      ensures Leq(s[0], rest[j])
    {
      assert rest[j] in multiset(rest);
      if rest[j] != x {
        assert rest[j] in s[1..];
      }
    }
  }

  /** The list sort.Strings leaves behind. */
  function Sorted(s: seq<string>): (r: seq<string>)
    ensures Ordered(r) && multiset(r) == multiset(s) && |r| == |s|
  {
    if s == [] then [] else
    assert s == [s[0]] + s[1..];
    Insert(s[0], Sorted(s[1..]))
  }

  /** The first of an ordered list is its least element. */
  lemma SameHead(a: seq<string>, b: seq<string>)
    requires Ordered(a) && Ordered(b) && a != [] && b != [] && a[0] in b && b[0] in a
    ensures a[0] == b[0]
  {
    var i :| 0 <= i < |b| && b[i] == a[0];
    var j :| 0 <= j < |a| && a[j] == b[0];
    if i > 0 && j > 0 {
      assert Leq(a[0], a[j]) && Leq(b[0], b[i]);
      LeqAntisymmetric(a[0], b[0]);
    }
  }

  lemma TailMultiset(a: seq<string>)
    requires a != []
    ensures multiset(a[1..]) == multiset(a) - multiset{a[0]}
  {
    assert a == [a[0]] + a[1..];
  }

  /** A multiset has only one ordered arrangement. */
  lemma {:induction false} OrderedUnique(a: seq<string>, b: seq<string>)
    requires Ordered(a) && Ordered(b) && multiset(a) == multiset(b)
    ensures a == b
  {
    assert |a| == |multiset(a)| == |b|;
    if a != [] {
      assert a[0] in multiset(b) && b[0] in multiset(a);
      SameHead(a, b);
      TailMultiset(a);
      TailMultiset(b);
      OrderedUnique(a[1..], b[1..]);
      assert a == [a[0]] + a[1..] && b == [b[0]] + b[1..];
    }
  }

  /** Comparing sorted copies decides equality up to order. */
  lemma SortedEqual(a: seq<string>, b: seq<string>)
    ensures Sorted(a) == Sorted(b) <==> multiset(a) == multiset(b)
  {
    if multiset(a) == multiset(b) {
      OrderedUnique(Sorted(a), Sorted(b));
    }
  }

  // ---------------------------------------------------------------------------------------------
  // Slices
  // ---------------------------------------------------------------------------------------------

  /** A Go slice: a window on a backing array that other slices may share. */
  datatype Slice = Slice(arr: array<string>, lo: nat, len: nat) {
    predicate Valid() {
      lo + len <= arr.Length
    }

    function View(): seq<string>
      requires Valid()
      reads arr
    {
      arr[lo..lo + len]
    }
  }

  /** Two windows that no sort can confuse: apart, or the very same. */
  predicate Compatible(s: Slice, t: Slice) {
    || s.arr != t.arr
    || s.len == 0
    || t.len == 0
    || s.lo + s.len <= t.lo
    || t.lo + t.len <= s.lo
    || (s.lo == t.lo && s.len == t.len)
  }

  predicate AllCompatible(all: set<Slice>) {
    && (forall s {:trigger s.Valid()} | s in all :: s.Valid())
    && (forall s, t {:trigger Compatible(s, t)} | s in all && t in all :: Compatible(s, t))
  }

  /** What each list holds, whatever its order. */
  type Contents = map<Slice, multiset<string>>

  ghost predicate Holds(all: set<Slice>, contents: Contents)
    requires forall s | s in all :: s.Valid()
    reads set s | s in all :: s.arr
  {
    forall s | s in all :: s in contents && multiset(s.View()) == contents[s]
  }

  /** The array after the window is overwritten. */
  function Overwritten(a: seq<string>, lo: nat, vals: seq<string>): (r: seq<string>)
    requires lo + |vals| <= |a|
    ensures |r| == |a|
  {
    a[..lo] + vals + a[lo + |vals|..]
  }

  lemma OverwrittenAt(a: seq<string>, lo: nat, vals: seq<string>, k: nat)
    requires lo + |vals| <= |a| && k < |a|
    ensures Overwritten(a, lo, vals)[k] == if lo <= k < lo + |vals| then vals[k - lo] else a[k]
  {}

  /** A compatible window is either untouched or is the overwritten one. */
  lemma WindowAfter(a: seq<string>, lo: nat, vals: seq<string>, tlo: nat, tlen: nat)
    requires lo + |vals| <= |a| && tlo + tlen <= |a|
    requires |vals| == 0 || tlen == 0 || lo + |vals| <= tlo || tlo + tlen <= lo || (lo == tlo && |vals| == tlen)
    ensures var r := Overwritten(a, lo, vals)[tlo..tlo + tlen];
            r == if lo == tlo && |vals| == tlen then vals else a[tlo..tlo + tlen]
  {
    var r := Overwritten(a, lo, vals)[tlo..tlo + tlen];
    var expected := if lo == tlo && |vals| == tlen then vals else a[tlo..tlo + tlen];
    forall k | 0 <= k < tlen
      ensures r[k] == expected[k]
    {
      OverwrittenAt(a, lo, vals, tlo + k);
    }
  }

  method Overwrite(s: Slice, vals: seq<string>)
    requires s.Valid() && |vals| == s.len
    modifies s.arr
    ensures s.arr[..] == Overwritten(old(s.arr[..]), s.lo, vals)
  {
    for k := 0 to s.len
      invariant forall j | 0 <= j < s.arr.Length :: s.arr[j] == if s.lo <= j < s.lo + k then vals[j - s.lo] else old(s.arr[j])
    {
      s.arr[s.lo + k] := vals[k];
    }
    ghost var before := old(s.arr[..]);
    forall j | 0 <= j < s.arr.Length
      ensures s.arr[..][j] == Overwritten(before, s.lo, vals)[j]
    {
      OverwrittenAt(before, s.lo, vals, j);
    }
  }

  /** A list is a window of its array. */
  lemma ViewIs(t: Slice)
    requires t.Valid()
    ensures t.View() == t.arr[..][t.lo..t.lo + t.len]
  {}

  predicate SameWindow(s: Slice, t: Slice) {
    t.arr == s.arr && t.lo == s.lo && t.len == s.len
  }

  /** Overwriting one of many slices leaves every other as it was, unless it is the same window. */
  method ReplaceWindow(s: Slice, vals: seq<string>, ghost all: set<Slice>)
    requires AllCompatible(all) && s in all && |vals| == s.len
    modifies s.arr
    ensures forall t | t in all :: t.View() == if SameWindow(s, t) then vals else old(t.View())
  {
    ghost var before := s.arr[..];
    Overwrite(s, vals);
    forall t | t in all
      ensures t.View() == if SameWindow(s, t) then vals else old(t.View())
    {
      assert t.Valid();
      if t.arr == s.arr {
        assert Compatible(s, t);
        WindowAfter(before, s.lo, vals, t.lo, t.len);
        assert old(t.View()) == before[t.lo..t.lo + t.len];
        ViewIs(t);
      }
    }
  }

  /** sort.Strings on one of many slices: it sorts that list and permutes every other at most. */
  method SortStrings(s: Slice, ghost all: set<Slice>, ghost contents: Contents)
    requires AllCompatible(all) && s in all && Holds(all, contents)
    modifies s.arr
    ensures s.View() == Sorted(old(s.View())) && Holds(all, contents)
    ensures forall t | t in all :: t.View() == old(t.View()) || t.View() == s.View()
  {
    ReplaceWindow(s, Sorted(s.View()), all);
    forall t | t in all
      ensures multiset(t.View()) == old(multiset(t.View()))
    {
      assert SameWindow(s, t) ==> old(t.View()) == old(s.View());
    }
  }
}
