/**
 Keeping the security groups of an instance's network interfaces at core plus additional.

 controllers/awsmachine_security_groups.go: securityGroupsChanged, ensureSecurityGroups.
 */
module SecurityGroups {
  import opened Basics
  import opened StringSorting

  /** The groups every interface must have, each once. */
  function Wanted(core: seq<string>, additional: seq<string>): multiset<string> {
    multiset(Elements(core) + Elements(additional))
  }

  /** Without repetitions a list is determined, up to order, by its elements. */
  lemma {:induction false} NoDuplicatesMultiset(s: seq<string>)
    requires NoDuplicates(s)
    ensures multiset(s) == multiset(Elements(s))
  {
    if s != [] {
      var last := |s| - 1;
      NoDuplicatesMultiset(s[..last]);
      assert s == s[..last] + [s[last]];
      assert s[last] !in s[..last];
      assert Elements(s) == Elements(s[..last]) + {s[last]};
    }
  }

  /** A multiset comparison with the wanted groups is a comparison of sets that also refuses repetitions. */
  lemma SameAsWanted(s: seq<string>, core: seq<string>, additional: seq<string>)
    ensures multiset(s) == Wanted(core, additional)
            <==> NoDuplicates(s) && Elements(s) == Elements(core) + Elements(additional)
  {
    if NoDuplicates(s) {
      NoDuplicatesMultiset(s);
      assert forall x :: x in multiset(Elements(s)) <==> x in Elements(s);
      assert forall x :: x in Wanted(core, additional) <==> x in Elements(core) + Elements(additional);
    } else {
      RepeatedTwice(s);
    }
  }

  lemma RepeatedTwice(s: seq<string>)
    requires !NoDuplicates(s)
    ensures exists x :: multiset(s)[x] >= 2
  {
    var i, j :| 0 <= i < j < |s| && s[i] == s[j];
    assert s == s[..i] + [s[i]] + s[i + 1..j] + [s[j]] + s[j + 1..];
    assert multiset(s)[s[i]] >= 2;
  }

  // ---------------------------------------------------------------------------------------------
  // securityGroupsChanged
  // ---------------------------------------------------------------------------------------------

  /** The state map after its three loops: true for what to keep, false for what the annotation alone has. */
  method BuildState(annotation: set<string>, core: seq<string>, additional: seq<string>) returns (state: map<string, bool>)
    ensures forall x :: x in state && state[x] <==> x in core || x in additional
    ensures forall x :: x in state && !state[x] <==> x in annotation && x !in core && x !in additional
  {
    state := map[];
    for k := 0 to |additional|
      invariant forall x :: x in state <==> x in additional[..k]
      invariant forall x | x in state :: state[x]
    {
      state := state[additional[k] := true];
    }
    var pending := annotation;
    while pending != {}
      invariant pending <= annotation
      invariant forall x :: x in state && state[x] <==> x in additional
      invariant forall x :: x in state && !state[x] <==> x in annotation - pending && x !in additional
    {
      var id :| id in pending;
      if id !in state {
        state := state[id := false];
      }
      pending := pending - {id};
    }
    for k := 0 to |core|
      invariant forall x :: x in state && state[x] <==> x in core[..k] || x in additional
      invariant forall x :: x in state && !state[x] <==> x in annotation && x !in core[..k] && x !in additional
    {
      state := state[core[k] := true];
    }
  }

  /** The list of kept groups, in whatever order the map is ranged over. */
  method Kept(state: map<string, bool>) returns (res: seq<string>)
    ensures NoDuplicates(res)
    ensures forall x :: x in res <==> x in state && state[x]
  {
    res := [];
    var pending := state.Keys;
    while pending != {}
      invariant pending <= state.Keys && NoDuplicates(res)
      invariant forall x :: x in res <==> x in state.Keys - pending && state[x]
    {
      var id :| id in pending;
      if state[id] {
        res := res + [id];
      }
      pending := pending - {id};
    }
  }

  method SameGroups(actual: Slice, res: seq<string>) returns (same: bool)
    requires actual.Valid() && actual.len == |res|
    ensures same <==> actual.View() == res
  {
    for k := 0 to |res|
      invariant actual.View()[..k] == res[..k]
    {
      assert actual.View()[k] == actual.arr[actual.lo + k];
      if actual.arr[actual.lo + k] != res[k] {
        return false;
      }
      assert actual.View()[..k + 1] == actual.View()[..k] + [actual.View()[k]];
      assert res[..k + 1] == res[..k] + [res[k]];
    }
    assert actual.View()[..|res|] == actual.View() && res[..|res|] == res;
    return true;
  }

  /** One round of the comparison loop: compare lengths, sort both lists in place, compare. */
  method CompareInterface(actual: Slice, res: seq<string>, ghost all: set<Slice>, ghost contents: Contents)
    returns (same: bool, res': seq<string>)
    requires AllCompatible(all) && Holds(all, contents) && actual in all
    modifies actual.arr
    ensures Holds(all, contents) && multiset(res') == multiset(res)
    ensures same <==> contents[actual] == multiset(res)
  {
    res' := res;
    if actual.len != |res| {
      assert |multiset(actual.View())| == actual.len;
      return false, res;
    }
    SortStrings(actual, all, contents);
    res' := Sorted(res);
    SortedEqual(old(actual.View()), res);
    same := SameGroups(actual, res');
  }

  /** Some interface's groups are not, as a multiset, the wanted ones. */
  predicate SomeDiffer(existing: map<string, Slice>, contents: Contents, want: multiset<string>)
    requires forall eni | eni in existing :: existing[eni] in contents
  {
    exists eni | eni in existing :: contents[existing[eni]] != want
  }

  /** The comparison loop over the interfaces, with its early return. */
  method CompareAll(existing: map<string, Slice>, wanted: seq<string>,
                    ghost all: set<Slice>, ghost bufs: set<array<string>>, ghost contents: Contents) returns (changed: bool, res: seq<string>)
    requires AllCompatible(all) && Holds(all, contents) && all <= contents.Keys
    requires forall eni | eni in existing :: existing[eni] in all
    requires forall s {:trigger s.arr} | s in all :: s.arr in bufs
    modifies bufs
    ensures Holds(all, contents) && multiset(res) == multiset(wanted)
    ensures changed <==> SomeDiffer(existing, contents, multiset(wanted))
  {
    res := wanted;
    var pending := existing.Keys;
    while pending != {}
      invariant pending <= existing.Keys
      invariant Holds(all, contents) && multiset(res) == multiset(wanted)
      invariant forall eni | eni in existing.Keys - pending :: contents[existing[eni]] == multiset(wanted)
    {
      var eni :| eni in pending;
      var same: bool;
      same, res := CompareInterface(existing[eni], res, all, contents);
      if !same {
        return true, res;
      }
      pending := pending - {eni};
    }
    return false, res;
  }

  /**
   securityGroupsChanged.  The answer does not depend on the annotation, on the order in which a map is
   ranged over, or on the order of any list.
   */
  method SecurityGroupsChanged(
    annotation: set<string>, core: seq<string>, additional: seq<string>, existing: map<string, Slice>,
    ghost all: set<Slice>, ghost bufs: set<array<string>>, ghost contents: Contents) returns (changed: bool, res: seq<string>)
    requires AllCompatible(all) && Holds(all, contents) && all <= contents.Keys
    requires forall eni | eni in existing :: existing[eni] in all
    requires forall s {:trigger s.arr} | s in all :: s.arr in bufs
    modifies bufs
    ensures Holds(all, contents)
    ensures NoDuplicates(res) && Elements(res) == Elements(core) + Elements(additional)
    ensures multiset(res) == Wanted(core, additional)
    ensures changed <==> SomeDiffer(existing, contents, Wanted(core, additional))
  {
    var state := BuildState(annotation, core, additional);
    res := Kept(state);
    assert Elements(res) == Elements(core) + Elements(additional);
    SameAsWanted(res, core, additional);
    changed, res := CompareAll(existing, res, all, bufs, contents);
    SameAsWanted(res, core, additional);
  }

  // ---------------------------------------------------------------------------------------------
  // The pass
  // ---------------------------------------------------------------------------------------------

  /** Every interface has exactly the wanted groups. */
  predicate InPlace(interfaces: map<string, seq<string>>, core: seq<string>, additional: seq<string>) {
    forall eni | eni in interfaces :: multiset(interfaces[eni]) == Wanted(core, additional)
  }

  /** After a pass: every interface is as before or as wanted. */
  predicate BeforeOrWanted(before: map<string, seq<string>>, after: map<string, seq<string>>, core: seq<string>, additional: seq<string>) {
    && after.Keys == before.Keys
    && forall eni | eni in after :: after[eni] == before[eni] || multiset(after[eni]) == Wanted(core, additional)
  }

  /** An instance's interfaces, and the last applied groups in the machine's annotation. */
  class Instance {
    var interfaces: map<string, seq<string>>
    var annotation: set<string>

    constructor (interfaces: map<string, seq<string>>, annotation: set<string>)
      ensures this.interfaces == interfaces && this.annotation == annotation
    {
      this.interfaces := interfaces;
      this.annotation := annotation;
    }

    /** GetInstanceSecurityGroups: one new list for each interface. */
    method GetInstanceSecurityGroups() returns (existing: map<string, Slice>, ghost contents: Contents)
      ensures existing.Keys == interfaces.Keys && forall eni | eni in existing :: existing[eni] in contents
      ensures forall s | s in contents :: fresh(s.arr)
      ensures AllCompatible(contents.Keys) && Holds(contents.Keys, contents)
      ensures forall eni | eni in existing :: contents[existing[eni]] == multiset(interfaces[eni])
    {
      existing, contents := map[], map[];
      var pending := interfaces.Keys;
      while pending != {}
        invariant pending <= interfaces.Keys
        invariant existing.Keys == interfaces.Keys - pending && forall eni | eni in existing :: existing[eni] in contents
        invariant forall s | s in contents :: fresh(s.arr)
        invariant AllCompatible(contents.Keys) && Holds(contents.Keys, contents)
        invariant forall eni | eni in existing :: contents[existing[eni]] == multiset(interfaces[eni])
      {
        var eni :| eni in pending;
        var groups := interfaces[eni];
        var arr := new string[|groups|](k requires 0 <= k < |groups| => groups[k]);
        var slice := Slice(arr, 0, |groups|);
        assert slice.View() == groups;
        assert slice !in contents;
        existing := existing[eni := slice];
        contents := contents[slice := multiset(groups)];
        pending := pending - {eni};
      }
    }

    /** UpdateInstanceSecurityGroups: stops at the first interface whose call fails. */
    method UpdateInstanceSecurityGroups(ids: seq<string>, failing: set<string>) returns (ok: bool)
      modifies this`interfaces
      ensures interfaces.Keys == old(interfaces).Keys
      ensures ok <==> interfaces.Keys !! failing
      ensures forall eni | eni in interfaces :: interfaces[eni] == ids || (!ok && interfaces[eni] == old(interfaces)[eni])
    {
      var pending := interfaces.Keys;
      while pending != {}
        invariant interfaces.Keys == old(interfaces).Keys && pending <= interfaces.Keys
        invariant (interfaces.Keys - pending) !! failing
        invariant forall eni | eni in interfaces :: interfaces[eni] == if eni in pending then old(interfaces)[eni] else ids
      {
        var eni :| eni in pending;
        if eni in failing {
          return false;
        }
        interfaces := interfaces[eni := ids];
        pending := pending - {eni};
      }
      return true;
    }

    /** The two reads of a pass: what the interfaces have, and whether it is what they should have. */
    method ReadAndCompare(core: seq<string>, additional: seq<string>) returns (changed: bool, ids: seq<string>)
      ensures multiset(ids) == Wanted(core, additional)
      ensures changed <==> !InPlace(interfaces, core, additional)
    {
      var existing, contents := GetInstanceSecurityGroups();
      changed, ids := SecurityGroupsChanged(annotation, core, additional, existing, contents.Keys,
                                            set s | s in contents :: s.arr, contents);
    }

    /**
     ensureSecurityGroups after reading the interfaces; a lookup of the groups that fails is None.
     A pass without error ends in place and reports whether it was so before; nothing it does depends on the
     annotation, so lost annotation writes are harmless.
     */
    method EnsureSecurityGroups(core: Option<seq<string>>, additional: Option<seq<string>>, failing: set<string>) returns (r: Option<bool>)
      modifies this
      ensures core.None? || additional.None? ==> r.None? && interfaces == old(interfaces) && annotation == old(annotation)
      ensures core.Some? && additional.Some? ==>
                && BeforeOrWanted(old(interfaces), interfaces, core.value, additional.value)
                && (r.Some? ==> InPlace(interfaces, core.value, additional.value))
                && (r.Some? <==> InPlace(old(interfaces), core.value, additional.value) || interfaces.Keys !! failing)
                && (r.Some? ==> r.value == !InPlace(old(interfaces), core.value, additional.value))
                && (r == Some(false) ==> interfaces == old(interfaces))
                && annotation == if r == Some(true) then Elements(additional.value) else old(annotation)
    {
      if core.None? || additional.None? {
        return None;
      }
      var changed, ids := ReadAndCompare(core.value, additional.value);
      if !changed {
        return Some(false);
      }
      var ok := UpdateInstanceSecurityGroups(ids, failing);
      if !ok {
        return None;
      }
      annotation := Elements(additional.value);
      return Some(true);
    }

    /** After a pass that succeeded, the next one for the same groups changes nothing, whatever the annotation says. */
    method EnsureTwice(core: seq<string>, additional: seq<string>, lost: set<string>, failing: set<string>) returns (second: Option<bool>)
      modifies this
      ensures InPlace(old(interfaces), core, additional) ==> interfaces == old(interfaces)
      ensures old(interfaces).Keys !! failing ==> second == Some(false) && InPlace(interfaces, core, additional)
    {
      var first := EnsureSecurityGroups(Some(core), Some(additional), failing);
      annotation := lost;
      second := EnsureSecurityGroups(Some(core), Some(additional), failing);
    }
  }
}
