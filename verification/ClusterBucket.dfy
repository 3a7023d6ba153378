/**
 The cluster's bucket and the machines' bootstrap objects in it.

 DeleteBucket reports success for a bucket that is not empty and leaves it (pkg/cloud/services/s3/s3.go).  If only the
 cluster's machines keep objects there, the bucket stays only because one of them left its object behind.
 */
module ClusterBucket {
  import opened Basics
  import opened MachineProtocol
  import opened MachineInvariant
  import opened MachineObjects
  import opened ClusterProtocol
  import opened ClusterSafety

  predicate BucketEmpty(s: System) {
    forall n | n in s.machines :: !s.machines[n].cloud.bucketObject
  }

  /** The answer of DeleteBucket: an empty bucket is deleted or the call fails, any other stays. */
  predicate BucketAnswer(s: System, e: SystemEvent) {
    e.ClusterStep? && e.c.Removed? && s.cluster.pass.Working? && s.cluster.pass.pc == Remove(0) ==>
      (if BucketEmpty(s) then e.c.ok ==> e.c.gone else !e.c.gone)
  }

  /** Nobody else keeps objects in the bucket. */
  predicate OnlyMachinesUseBucket(events: seq<SystemEvent>) {
    events == [] ||
    (var last := |events| - 1;
     && OnlyMachinesUseBucket(events[..last])
     && (SystemReplay(events[..last]).Some? ==> BucketAnswer(SystemReplay(events[..last]).value, events[last])))
  }

  /** The pass has had the answer about the bucket, and no error. */
  predicate PastBucket(c: Cluster) {
    && c.pass.Working?
    && ((c.pass.pc.Remove? && c.pass.pc.step > 0 && !c.pass.errs) || (c.pass.before.finalizer && !c.pass.mem.finalizer))
  }

  predicate BucketInv(s: System) {
    && (s.cluster.store.Some? && !s.cluster.store.value.finalizer ==> Bucket !in s.cluster.resources)
    && (s.cluster.store.None? && Bucket in s.cluster.resources ==> AllMachinesGone(s) && !BucketEmpty(s))
    && (PastBucket(s.cluster) && Bucket in s.cluster.resources ==> !BucketEmpty(s))
  }

  /** Once every machine is gone, no step of one changes what is in the bucket. */
  lemma BucketFixed(s: System, n: Name, e: Event)
    requires n in s.machines && Reachable(s.machines[n]) && s.machines[n].store.None? && Enabled(s.machines[n], e)
    ensures BucketEmpty(s.(machines := s.machines[n := Apply(s.machines[n], e)])) <==> BucketEmpty(s)
  {
    ObjectReachable(s.machines[n]);
    GoneObjectFixed(s.machines[n], e);
    var t := s.(machines := s.machines[n := Apply(s.machines[n], e)]);
    assert forall k | k in s.machines :: t.machines[k].cloud.bucketObject == s.machines[k].cloud.bucketObject;
  }

  lemma BucketMachineStep(s: System, n: Name, e: Event)
    requires SystemInv(s) && BucketInv(s) && SystemEnabled(s, MachineStep(n, e)) && Reachable(s.machines[n])
    requires SystemInv(SystemApply(s, MachineStep(n, e)))
    ensures BucketInv(SystemApply(s, MachineStep(n, e)))
  {
    if s.machines[n].store.None? {
      BucketFixed(s, n, e);
      GoneStaysGone(s, n, e);
    }
  }

  lemma GoneStaysGone(s: System, n: Name, e: Event)
    requires SystemInv(s) && SystemEnabled(s, MachineStep(n, e)) && s.machines[n].store.None?
    ensures AllMachinesGone(s) ==> AllMachinesGone(SystemApply(s, MachineStep(n, e)))
  {
    if AllMachinesGone(s) {
      GoneStays(s.machines[n], e);
    }
  }

  lemma BucketClusterStep(s: System, c: ClusterEvent)
    requires SystemInv(s) && BucketInv(s) && SystemEnabled(s, ClusterStep(c)) && BucketAnswer(s, ClusterStep(c))
    ensures BucketInv(SystemApply(s, ClusterStep(c)))
  {
    var t := SystemApply(s, ClusterStep(c));
    assert t.machines == s.machines;
    assert BucketEmpty(t) <==> BucketEmpty(s);
    assert AllMachinesGone(t) <==> AllMachinesGone(s);
  }

  lemma BucketStep(s: System, e: SystemEvent)
    requires SystemInv(s) && BucketInv(s) && SystemEnabled(s, e) && BucketAnswer(s, e)
    requires forall n | n in s.machines :: Reachable(s.machines[n])
    ensures BucketInv(SystemApply(s, e))
  {
    match e {
      case MachineStep(n, m) =>
        SystemInvStep(s, e);
        BucketMachineStep(s, n, m);
      case AddMachine(n, start) =>
      case ClusterStep(c) => BucketClusterStep(s, c);
    }
  }

  lemma {:induction false} BucketRun(events: seq<SystemEvent>)
    requires SystemReplay(events).Some? && OnlyMachinesUseBucket(events)
    ensures BucketInv(SystemReplay(events).value)
  {
    if events != [] {
      var last := |events| - 1;
      BucketRun(events[..last]);
      SystemInvRun(events[..last]);
      MachinesReachable(events[..last]);
      BucketStep(SystemReplay(events[..last]).value, events[last]);
    }
  }

  /** The AWSCluster is gone and its bucket is not: some machine, gone too, left its bootstrap object in it. */
  lemma BucketStaysFull(events: seq<SystemEvent>)
    requires SystemReplay(events).Some? && OnlyMachinesUseBucket(events)
    requires SystemReplay(events).value.cluster.store.None? && Bucket in SystemReplay(events).value.cluster.resources
    ensures var s := SystemReplay(events).value;
            exists n :: n in s.machines && s.machines[n].store.None? && s.machines[n].cloud.bucketObject
  {
    BucketRun(events);
    var s := SystemReplay(events).value;
    var n :| n in s.machines && s.machines[n].cloud.bucketObject;
    assert s.machines[n].store.None?;
  }

  /** The bucket is deleted only when no machine has an object in it, and every machine is gone by then. */
  lemma BucketRemovedEmpty(events: seq<SystemEvent>, e: SystemEvent)
    requires SystemReplay(events).Some? && SystemEnabled(SystemReplay(events).value, e) && BucketAnswer(SystemReplay(events).value, e)
    requires var s := SystemReplay(events).value;
             Bucket in s.cluster.resources && Bucket !in SystemApply(s, e).cluster.resources
    ensures BucketEmpty(SystemReplay(events).value) && AllObservedGone(events)
  {
    ResourceRemovedAfterMachines(events, e);
    SystemInvRun(events);
    OnlyFirstRemovesBucket(SystemReplay(events).value, e);
  }

  lemma OnlyFirstRemovesBucket(s: System, e: SystemEvent)
    requires SystemEnabled(s, e) && Bucket in s.cluster.resources && Bucket !in SystemApply(s, e).cluster.resources
    ensures e.ClusterStep? && e.c.Removed? && e.c.gone && s.cluster.pass.Working? && s.cluster.pass.pc == Remove(0)
  {}

  // ---------------------------------------------------------------------------------------------
  // Exactly when the bucket stays
  // ---------------------------------------------------------------------------------------------

  /** The cluster is deleted, every machine is gone, and none has left an object. */
  predicate EmptyForGood(s: System) {
    AllMachinesGone(s) && BucketEmpty(s) && (s.cluster.store.Some? ==> s.cluster.store.value.deleted)
  }

  lemma DeletedStays(c: Cluster, e: ClusterEvent, n: nat)
    requires ClusterEnabled(c, e) && (c.store.Some? ==> c.store.value.deleted)
    ensures ApplyCluster(c, e, n).store.Some? ==> ApplyCluster(c, e, n).store.value.deleted
  {}

  lemma EmptyStep(s: System, e: SystemEvent)
    requires SystemInv(s) && EmptyForGood(s) && SystemEnabled(s, e) && forall n | n in s.machines :: Reachable(s.machines[n])
    ensures EmptyForGood(SystemApply(s, e))
  {
    match e {
      case MachineStep(n, m) =>
        BucketFixed(s, n, m);
        GoneStaysGone(s, n, m);
      case AddMachine(_, _) => assert false;
      case ClusterStep(c) => DeletedStays(s.cluster, c, |Listed(s)|);
    }
  }

  /** The step that deletes the bucket finds it empty, and nothing is added any more. */
  lemma BucketGoesEmpty(events: seq<SystemEvent>, e: SystemEvent)
    requires SystemReplay(events).Some? && SystemEnabled(SystemReplay(events).value, e) && BucketAnswer(SystemReplay(events).value, e)
    requires var s := SystemReplay(events).value;
             Bucket in s.cluster.resources && Bucket !in SystemApply(s, e).cluster.resources
    ensures EmptyForGood(SystemApply(SystemReplay(events).value, e))
  {
    var s := SystemReplay(events).value;
    BucketRemovedEmpty(events, e);
    ResourceRemovedAfterMachines(events, e);
    SystemInvRun(events);
    MachinesReachable(events);
    EmptyStep(s, e);
  }

  /** A bucket that existed after k events is there still, or was deleted empty. */
  lemma {:induction false} StillThereOrEmpty(events: seq<SystemEvent>, k: nat)
    requires SystemReplay(events).Some? && OnlyMachinesUseBucket(events)
    requires k <= |events| && SystemReplay(events[..k]).Some? && Bucket in SystemReplay(events[..k]).value.cluster.resources
    ensures Bucket in SystemReplay(events).value.cluster.resources || EmptyForGood(SystemReplay(events).value)
  {
    if k == |events| {
      assert events[..k] == events;
    } else {
      var last := |events| - 1;
      assert events[..last][..k] == events[..k];
      StillThereOrEmpty(events[..last], k);
      var s := SystemReplay(events[..last]).value;
      if Bucket in SystemReplay(events).value.cluster.resources {
      } else if Bucket in s.cluster.resources {
        BucketGoesEmpty(events[..last], events[last]);
      } else {
        SystemInvRun(events[..last]);
        MachinesReachable(events[..last]);
        EmptyStep(s, events[last]);
      }
    }
  }

  /** A bucket the cluster had outlives the AWSCluster if and only if some machine left its bootstrap object in it. */
  lemma BucketLeftIff(events: seq<SystemEvent>, k: nat)
    requires SystemReplay(events).Some? && OnlyMachinesUseBucket(events) && SystemReplay(events).value.cluster.store.None?
    requires k <= |events| && SystemReplay(events[..k]).Some? && Bucket in SystemReplay(events[..k]).value.cluster.resources
    ensures var s := SystemReplay(events).value;
            Bucket in s.cluster.resources <==> exists n :: n in s.machines && s.machines[n].store.None? && s.machines[n].cloud.bucketObject
  {
    StillThereOrEmpty(events, k);
    if Bucket in SystemReplay(events).value.cluster.resources {
      BucketStaysFull(events);
    }
  }
}
