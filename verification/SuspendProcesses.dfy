/**
 Suspended processes of an autoscaling group.

 exp/controllers/awsmachinepool_controller.go: the difference inside updatePool.
 */
module SuspendProcesses {
  import opened Basics

  /** The map a list is turned into. */
  method ToMap(list: seq<string>) returns (m: set<string>)
    ensures m == Elements(list)
  {
    m := {};
    for k := 0 to |list|
      invariant m == Elements(list[..k])
    {
      m := m + {list[k]};
    }
    assert list[..|list|] == list;
  }

  /** The list a map is turned into, in the order it is ranged over. */
  method ToList(m: set<string>) returns (list: seq<string>)
    ensures NoDuplicates(list) && Elements(list) == m
  {
    list := [];
    var pending := m;
    while pending != {}
      invariant pending <= m && NoDuplicates(list) && Elements(list) == m - pending
    {
      var k :| k in pending;
      list := list + [k];
      pending := pending - {k};
    }
  }

  /** The two lists, computed by removing from both maps while ranging over one of them. */
  method Diff(current: seq<string>, desired: seq<string>) returns (toBeSuspended: seq<string>, toBeResumed: seq<string>)
    ensures NoDuplicates(toBeSuspended) && NoDuplicates(toBeResumed)
    ensures Elements(toBeSuspended) == Elements(desired) - Elements(current)
    ensures Elements(toBeResumed) == Elements(current) - Elements(desired)
    ensures Elements(toBeSuspended) !! Elements(toBeResumed)
    ensures (Elements(current) + Elements(toBeSuspended)) - Elements(toBeResumed) == Elements(desired)
  {
    var currentlySuspended := ToMap(current);
    var desiredSuspended := ToMap(desired);
    // A range over a map visits each entry that is still there when its turn comes.
    var pending := desiredSuspended;
    while pending != {}
      invariant pending <= desiredSuspended <= Elements(desired)
      invariant desiredSuspended == Elements(desired) - (Elements(current) - pending)
      invariant currentlySuspended == Elements(current) - (Elements(desired) - pending)
    {
      var k :| k in pending;
      if k in currentlySuspended {
        desiredSuspended := desiredSuspended - {k};
      }
      currentlySuspended := currentlySuspended - {k};
      pending := (pending - {k}) * desiredSuspended;
    }
    toBeSuspended := ToList(desiredSuspended);
    toBeResumed := ToList(currentlySuspended);
  }

  /** An autoscaling group's suspended processes. */
  class AutoScalingGroup {
    var suspended: set<string>

    constructor (suspended: set<string>)
      ensures this.suspended == suspended
    {
      this.suspended := suspended;
    }

    /**
     The processes part of updatePool, from a list read from the group.  Without error the suspended
     set is the desired one; with an error nothing outside the two sets is suspended and nothing both want is
     resumed, so a later pass can still succeed.
     */
    method UpdateProcesses(current: seq<string>, desired: seq<string>, suspendFails: bool, resumeFails: bool) returns (ok: bool)
      requires Elements(current) == suspended
      modifies this
      ensures ok ==> suspended == Elements(desired)
      ensures ok <==> (suspendFails ==> Elements(desired) <= old(suspended)) && (resumeFails ==> old(suspended) <= Elements(desired))
      ensures old(suspended) * Elements(desired) <= suspended <= old(suspended) + Elements(desired)
    {
      if current == desired {
        return true;
      }
      var toBeSuspended, toBeResumed := Diff(current, desired);
      assert |toBeSuspended| > 0 ==> toBeSuspended[0] in Elements(toBeSuspended);
      assert |toBeResumed| > 0 ==> toBeResumed[0] in Elements(toBeResumed);
      if |toBeSuspended| > 0 {
        if suspendFails {
          return false;
        }
        suspended := suspended + Elements(toBeSuspended);
      }
      if |toBeResumed| > 0 {
        if resumeFails {
          return false;
        }
        suspended := suspended - Elements(toBeResumed);
      }
      return true;
    }
  }
}
