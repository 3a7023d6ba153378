/**
 Ingress rules of a security group: equality that sorts in place, and the difference of two lists.

 api/v1beta2/network_types.go: IngressRule.Equals, IngressRules.Difference.
 */
module IngressRules {
  import opened StringSorting

  /** A rule holds slices, so copies of a rule share their backing arrays. */
  datatype IngressRule = IngressRule(
    description: string,
    protocol: string,
    fromPort: int,
    toPort: int,
    cidrBlocks: Slice,
    ipv6CidrBlocks: Slice,
    sourceSecurityGroupIDs: Slice
  )

  /** The rule as a value: what its lists hold, whatever their order. */
  datatype RuleValue = RuleValue(
    description: string,
    protocol: string,
    fromPort: int,
    toPort: int,
    cidrBlocks: multiset<string>,
    ipv6CidrBlocks: multiset<string>,
    sourceSecurityGroupIDs: multiset<string>
  )

  predicate Known(r: IngressRule, all: set<Slice>) {
    r.cidrBlocks in all && r.ipv6CidrBlocks in all && r.sourceSecurityGroupIDs in all
  }

  predicate AllKnown(rules: seq<IngressRule>, all: set<Slice>) {
    forall k | 0 <= k < |rules| :: Known(rules[k], all)
  }

  function Value(r: IngressRule, contents: Contents): RuleValue
    requires Known(r, contents.Keys)
  {
    RuleValue(r.description, r.protocol, r.fromPort, r.toPort,
              contents[r.cidrBlocks], contents[r.ipv6CidrBlocks], contents[r.sourceSecurityGroupIDs])
  }

  function Values(rules: seq<IngressRule>, contents: Contents): (vals: seq<RuleValue>)
    requires AllKnown(rules, contents.Keys)
    ensures |vals| == |rules| && forall k | 0 <= k < |rules| :: vals[k] == Value(rules[k], contents)
  {
    if rules == [] then [] else
    var last := |rules| - 1;
    Values(rules[..last], contents) + [Value(rules[last], contents)]
  }

  /** Every list is one of all, no two of them overlap without being the same, and contents says what they hold. */
  ghost predicate Heap(all: set<Slice>, bufs: set<array<string>>, contents: Contents)
    reads bufs
  {
    && AllCompatible(all)
    && contents.Keys == all
    && (forall s {:trigger s.arr} | s in all :: s.arr in bufs)
    && (forall s {:trigger contents[s]} | s in all :: multiset(s.View()) == contents[s])
  }

  // ---------------------------------------------------------------------------------------------
  // What equality means
  // ---------------------------------------------------------------------------------------------

  /** Protocols for which ports mean something: tcp, udp, icmp and ICMPv6. */
  predicate HasPorts(protocol: string) {
    protocol == "tcp" || protocol == "udp" || protocol == "icmp" || protocol == "58"
  }

  predicate SameRule(a: RuleValue, b: RuleValue) {
    && a.cidrBlocks == b.cidrBlocks
    && a.ipv6CidrBlocks == b.ipv6CidrBlocks
    && a.sourceSecurityGroupIDs == b.sourceSecurityGroupIDs
    && a.description == b.description
    && a.protocol == b.protocol
    && (HasPorts(a.protocol) ==> a.fromPort == b.fromPort && a.toPort == b.toPort)
  }

  lemma SameRuleIsEquivalence(a: RuleValue, b: RuleValue, c: RuleValue)
    ensures SameRule(a, a)
    ensures SameRule(a, b) ==> SameRule(b, a)
    ensures SameRule(a, b) && SameRule(b, c) ==> SameRule(a, c)
  {}

  // ---------------------------------------------------------------------------------------------
  // Equals
  // ---------------------------------------------------------------------------------------------

  /** The comparison loop. */
  method ListsEqual(s: Slice, t: Slice) returns (same: bool)
    requires s.Valid() && t.Valid() && s.len == t.len
    ensures same <==> s.View() == t.View()
  {
    for k := 0 to s.len
      invariant s.View()[..k] == t.View()[..k]
    {
      if s.arr[s.lo + k] != t.arr[t.lo + k] {
        assert s.View()[k] != t.View()[k];
        return false;
      }
      assert s.View()[..k + 1] == s.View()[..k] + [s.View()[k]];
      assert t.View()[..k + 1] == t.View()[..k] + [t.View()[k]];
    }
    assert s.View()[..s.len] == s.View() && t.View()[..s.len] == t.View();
    return true;
  }

  /** Sorting the second list leaves the first one sorted, even when they are the same list. */
  method SortBoth(s: Slice, t: Slice, ghost all: set<Slice>, ghost bufs: set<array<string>>, ghost contents: Contents)
    requires Heap(all, bufs, contents) && s in all && t in all
    modifies s.arr, t.arr
    ensures Heap(all, bufs, contents)
    ensures Ordered(s.View()) && Ordered(t.View())
  {
    SortStrings(s, all, contents);
    SortStrings(t, all, contents);
  }

  /** One of the three blocks of Equals: compare lengths, sort both lists in place, compare. */
  method SameList(s: Slice, t: Slice, ghost all: set<Slice>, ghost bufs: set<array<string>>, ghost contents: Contents)
    returns (same: bool)
    requires Heap(all, bufs, contents) && s in all && t in all
    modifies s.arr, t.arr
    ensures Heap(all, bufs, contents)
    ensures same <==> contents[s] == contents[t]
  {
    if s.len != t.len {
      assert |multiset(s.View())| == s.len && |multiset(t.View())| == t.len;
      return false;
    }
    SortBoth(s, t, all, bufs, contents);
    same := ListsEqual(s, t);
    if multiset(s.View()) == multiset(t.View()) {
      OrderedUnique(s.View(), t.View());
    }
  }

  /** IngressRule.Equals: it decides SameRule and permutes the lists of the two rules at most. */
  method Equals(i: IngressRule, o: IngressRule, ghost all: set<Slice>, ghost bufs: set<array<string>>, ghost contents: Contents)
    returns (r: bool)
    requires Heap(all, bufs, contents) && Known(i, all) && Known(o, all)
    modifies bufs
    ensures Heap(all, bufs, contents)
    ensures r <==> SameRule(Value(i, contents), Value(o, contents))
  {
    r := SameList(i.cidrBlocks, o.cidrBlocks, all, bufs, contents);
    if !r {
      return;
    }
    r := SameList(i.ipv6CidrBlocks, o.ipv6CidrBlocks, all, bufs, contents);
    if !r {
      return;
    }
    r := SameList(i.sourceSecurityGroupIDs, o.sourceSecurityGroupIDs, all, bufs, contents);
    if !r {
      return;
    }
    if i.description != o.description || i.protocol != o.protocol {
      return false;
    }
    if HasPorts(i.protocol) {
      return i.fromPort == o.fromPort && i.toPort == o.toPort;
    }
    return true;
  }

  // ---------------------------------------------------------------------------------------------
  // Difference
  // ---------------------------------------------------------------------------------------------

  predicate Matched(x: RuleValue, others: seq<RuleValue>) {
    exists k :: 0 <= k < |others| && SameRule(x, others[k])
  }

  /** The rules whose value has no equal among the others, in order. */
  function Unmatched<T>(rules: seq<T>, vals: seq<RuleValue>, others: seq<RuleValue>): seq<T>
    requires |rules| == |vals|
  {
    if rules == [] then [] else
    var last := |rules| - 1;
    Unmatched(rules[..last], vals[..last], others) + if Matched(vals[last], others) then [] else [rules[last]]
  }

  /** The inner loop of Difference. */
  method Contains(x: IngressRule, o: seq<IngressRule>,
                  ghost all: set<Slice>, ghost bufs: set<array<string>>, ghost contents: Contents)
    returns (found: bool)
    requires Heap(all, bufs, contents) && Known(x, all) && AllKnown(o, all)
    modifies bufs
    ensures Heap(all, bufs, contents)
    ensures found <==> Matched(Value(x, contents), Values(o, contents))
  {
    for k := 0 to |o|
      invariant Heap(all, bufs, contents)
      invariant !Matched(Value(x, contents), Values(o, contents)[..k])
    {
      MatchedOneMore(Value(x, contents), Values(o, contents), k);
      found := Equals(x, o[k], all, bufs, contents);
      if found {
        MatchedWitness(Value(x, contents), Values(o, contents)[k], Values(o, contents));
        return;
      }
    }
    assert Values(o, contents)[..|o|] == Values(o, contents);
    return false;
  }

  lemma MatchedOneMore(x: RuleValue, others: seq<RuleValue>, k: nat)
    requires k < |others|
    ensures Matched(x, others[..k + 1]) <==> Matched(x, others[..k]) || SameRule(x, others[k])
  {
    if Matched(x, others[..k]) {
      var j :| 0 <= j < k && SameRule(x, others[..k][j]);
      assert others[..k + 1][j] == others[..k][j];
    } else if SameRule(x, others[k]) {
      assert others[..k + 1][k] == others[k];
    } else {
      var longer := others[..k + 1];
      forall j | 0 <= j < |longer|
        ensures !SameRule(x, longer[j])
      {
        if j < k {
          assert others[..k][j] == longer[j];
        }
      }
    }
  }

  /** What the outer loop of Difference has collected after k rules. */
  ghost predicate Collected(i: seq<IngressRule>, k: nat, out: seq<IngressRule>, others: seq<RuleValue>, contents: Contents)
    requires k <= |i| && AllKnown(i, contents.Keys)
  {
    && out == Unmatched(i[..k], Values(i[..k], contents), others)
    && AllKnown(out, contents.Keys)
    && Values(out, contents) == Unmatched(Values(i[..k], contents), Values(i[..k], contents), others)
  }

  lemma ValuesTake(i: seq<IngressRule>, k: nat, contents: Contents)
    requires k < |i| && AllKnown(i, contents.Keys)
    ensures Values(i[..k + 1], contents)[..k] == Values(i[..k], contents)
    ensures i[..k + 1][..k] == i[..k]
  {}

  lemma ValuesPush(out: seq<IngressRule>, r: IngressRule, contents: Contents)
    requires AllKnown(out, contents.Keys) && Known(r, contents.Keys)
    ensures Values(out + [r], contents) == Values(out, contents) + [Value(r, contents)]
  {
    assert (out + [r])[..|out|] == out;
  }

  lemma {:induction false} UnmatchedLast<T>(rules: seq<T>, vals: seq<RuleValue>, others: seq<RuleValue>, k: nat)
    requires |rules| == |vals| == k + 1
    ensures Unmatched(rules, vals, others)
            == Unmatched(rules[..k], vals[..k], others) + if Matched(vals[k], others) then [] else [rules[k]]
  {}

  lemma {:induction false} CollectOne(i: seq<IngressRule>, k: nat, out: seq<IngressRule>, others: seq<RuleValue>, contents: Contents)
    requires k < |i| && AllKnown(i, contents.Keys) && Collected(i, k, out, others, contents)
    ensures Collected(i, k + 1, if Matched(Value(i[k], contents), others) then out else out + [i[k]], others, contents)
  {
    var vals := Values(i[..k + 1], contents);
    ValuesTake(i, k, contents);
    ValuesPush(out, i[k], contents);
    UnmatchedLast(i[..k + 1], vals, others, k);
    UnmatchedLast(vals, vals, others, k);
    assert vals[k] == Value(i[k], contents);
  }

  /** IngressRules.Difference: unaffected by the reordering of its inputs' lists while it runs. */
  method Difference(i: seq<IngressRule>, o: seq<IngressRule>,
                    ghost all: set<Slice>, ghost bufs: set<array<string>>, ghost contents: Contents)
    returns (out: seq<IngressRule>)
    requires Heap(all, bufs, contents) && AllKnown(i, all) && AllKnown(o, all)
    modifies bufs
    ensures Heap(all, bufs, contents) && AllKnown(out, all)
    ensures out == Unmatched(i, Values(i, contents), Values(o, contents))
    ensures Values(out, contents) == Unmatched(Values(i, contents), Values(i, contents), Values(o, contents))
  {
    out := [];
    for k := 0 to |i|
      invariant Heap(all, bufs, contents)
      invariant Collected(i, k, out, Values(o, contents), contents)
    {
      CollectOne(i, k, out, Values(o, contents), contents);
      var found := Contains(i[k], o, all, bufs, contents);
      if !found {
        out := out + [i[k]];
      }
    }
    assert i[..|i|] == i;
  }

  // ---------------------------------------------------------------------------------------------
  // Revoke and authorize
  // ---------------------------------------------------------------------------------------------

  predicate Covers(a: seq<RuleValue>, b: seq<RuleValue>) {
    forall x | x in a :: Matched(x, b)
  }

  /** The group's rules after revoking one list and authorizing another. */
  function After(current: seq<RuleValue>, revoke: seq<RuleValue>, authorize: seq<RuleValue>): seq<RuleValue> {
    Unmatched(current, current, revoke) + authorize
  }

  lemma {:induction false} UnmatchedMembers(vals: seq<RuleValue>, others: seq<RuleValue>, x: RuleValue)
    ensures x in Unmatched(vals, vals, others) <==> x in vals && !Matched(x, others)
  {
    if vals != [] {
      var last := |vals| - 1;
      UnmatchedMembers(vals[..last], others, x);
      assert vals == vals[..last] + [vals[last]];
    }
  }

  lemma MatchedWitness(x: RuleValue, y: RuleValue, others: seq<RuleValue>)
    requires y in others && SameRule(x, y)
    ensures Matched(x, others)
  {}

  lemma MatchedTransfers(x: RuleValue, y: RuleValue, others: seq<RuleValue>)
    requires SameRule(x, y)
    ensures Matched(x, others) <==> Matched(y, others)
  {
    if Matched(x, others) {
      var k :| 0 <= k < |others| && SameRule(x, others[k]);
      MatchedWitness(y, others[k], others);
    }
    if Matched(y, others) {
      var k :| 0 <= k < |others| && SameRule(y, others[k]);
      MatchedWitness(x, others[k], others);
    }
  }

  /** Revoking current - want and authorizing want - current leaves exactly the wanted rules, up to equality. */
  lemma DifferencesConverge(current: seq<RuleValue>, want: seq<RuleValue>)
    ensures var revoke := Unmatched(current, current, want);
            var authorize := Unmatched(want, want, current);
            var after := After(current, revoke, authorize);
            Covers(after, want) && Covers(want, after)
  {
    var revoke := Unmatched(current, current, want);
    var authorize := Unmatched(want, want, current);
    var kept := Unmatched(current, current, revoke);
    var after := kept + authorize;
    forall x | x in after
      ensures Matched(x, want)
    {
      UnmatchedMembers(current, revoke, x);
      UnmatchedMembers(want, current, x);
      if x in kept {
        UnmatchedMembers(current, want, x);
        if !Matched(x, want) {
          MatchedWitness(x, x, revoke);
        }
      } else {
        MatchedWitness(x, x, want);
      }
    }
    forall w | w in want
      ensures Matched(w, after)
    {
      UnmatchedMembers(want, current, w);
      if Matched(w, current) {
        var k :| 0 <= k < |current| && SameRule(w, current[k]);
        var c := current[k];
        MatchedWitness(c, w, want);
        NotRevoked(current, want, c);
        UnmatchedMembers(current, revoke, c);
        MatchedWitness(w, c, after);
      } else {
        MatchedWitness(w, w, after);
      }
    }
  }

  /** A rule that is wanted equals no rule to be revoked. */
  lemma NotRevoked(current: seq<RuleValue>, want: seq<RuleValue>, c: RuleValue)
    requires Matched(c, want)
    ensures !Matched(c, Unmatched(current, current, want))
  {
    var revoke := Unmatched(current, current, want);
    forall k | 0 <= k < |revoke|
      ensures !SameRule(c, revoke[k])
    {
      UnmatchedMembers(current, want, revoke[k]);
      if SameRule(c, revoke[k]) {
        MatchedTransfers(c, revoke[k], want);
      }
    }
  }

  /** The two Difference calls of one security group, in the order the service makes them. */
  method PlanRules(current: seq<IngressRule>, want: seq<IngressRule>,
                   ghost all: set<Slice>, ghost bufs: set<array<string>>, ghost contents: Contents)
    returns (toRevoke: seq<IngressRule>, toAuthorize: seq<IngressRule>)
    requires Heap(all, bufs, contents) && AllKnown(current, all) && AllKnown(want, all)
    modifies bufs
    ensures Heap(all, bufs, contents) && AllKnown(toRevoke, all) && AllKnown(toAuthorize, all)
    ensures var after := After(Values(current, contents), Values(toRevoke, contents), Values(toAuthorize, contents));
            Covers(after, Values(want, contents)) && Covers(Values(want, contents), after)
  {
    toRevoke := Difference(current, want, all, bufs, contents);
    toAuthorize := Difference(want, current, all, bufs, contents);
    DifferencesConverge(Values(current, contents), Values(want, contents));
  }
}
