/**
 What the cluster controller may rely on when it deletes cluster resources, in every interleaving with any number of
 machine controllers.
 */
module ClusterSafety {
  import opened Basics
  import opened MachineProtocol
  import opened MachineInvariant
  import opened MachineSafety
  import opened MachineDeletion
  import opened ClusterProtocol

  /** Every machine of the system is in a state that a machine on its own can get to. */
  lemma {:induction false} MachinesReachable(events: seq<SystemEvent>)
    requires SystemReplay(events).Some?
    ensures forall n | n in SystemReplay(events).value.machines :: Reachable(SystemReplay(events).value.machines[n])
  {
    if events != [] {
      var last := |events| - 1;
      MachinesReachable(events[..last]);
      var s := SystemReplay(events[..last]).value;
      match events[last] {
        case MachineStep(n, e) => ReachableStep(s.machines[n], e);
        case AddMachine(n, start) => assert Replay(start, []) == Some(start);
        case ClusterStep(c) =>
      }
    }
  }

  // ---------------------------------------------------------------------------------------------
  // Recorded instances
  // ---------------------------------------------------------------------------------------------

  /** Machine n, not of a pool, recorded instance i after the first k events. */
  ghost predicate RecordedAt(events: seq<SystemEvent>, k: nat, n: Name, i: InstanceId) {
    && k <= |events| && SystemReplay(events[..k]).Some? && n in SystemReplay(events[..k]).value.machines
    && var s := SystemReplay(events[..k]).value.machines[n];
       !s.cfg.pool && Recorded(s, i)
  }

  /** A recorded instance is still recorded, or gone with the object. */
  predicate RecordedOrGone(s: State, i: InstanceId) {
    !s.cfg.pool && if s.store.Some? then Recorded(s, i) else GoneOrTerminated(s.cloud, i)
  }

  lemma RecordedOrGoneStep(s: State, e: Event, i: InstanceId)
    requires Reachable(s) && RecordedOrGone(s, i) && Enabled(s, e)
    ensures RecordedOrGone(Apply(s, e), i)
  {
    InvReachable(s);
    ConfigFixed(s, e);
    if s.store.None? {
      StoreNeverReturns(s, e);
      LaunchEffect(s, e);
      InstancesEffect(s, e);
    } else {
      RecordedStep(s, e, i);
      if Apply(s, e).store.None? {
        RecordedInstanceGone(s, e, i);
      }
    }
  }

  lemma ConfigFixed(s: State, e: Event)
    requires Enabled(s, e)
    ensures Apply(s, e).cfg == s.cfg
  {
    CallEffect(s, e);
  }

  lemma {:induction false} RecordedOrGoneRun(events: seq<SystemEvent>, k: nat, n: Name, i: InstanceId)
    requires SystemReplay(events).Some? && RecordedAt(events, k, n, i)
    ensures n in SystemReplay(events).value.machines && RecordedOrGone(SystemReplay(events).value.machines[n], i)
  {
    if k == |events| {
      assert events[..k] == events;
    } else {
      var last := |events| - 1;
      assert events[..last][..k] == events[..k];
      RecordedOrGoneRun(events[..last], k, n, i);
      MachinesReachable(events[..last]);
      if events[last].MachineStep? && events[last].name == n {
        RecordedOrGoneStep(SystemReplay(events[..last]).value.machines[n], events[last].e, i);
      }
    }
  }

  // ---------------------------------------------------------------------------------------------
  // What was observed
  // ---------------------------------------------------------------------------------------------

  /**
   The step removes the object, in a pass whose lookup found the recorded instance absent or terminated, or, without a
   recorded instance, found none by its tags.
   */
  predicate RemovedAfterLooking(s: State, e: Event, i: InstanceId) {
    && Enabled(s, e) && s.store.Some? && Apply(s, e).store.None? && s.pass.Active?
    && (s.pass.found.Missing? || (s.pass.found.Found? && s.pass.found.state.Terminated?))
    && (if Recorded(s, i) then GoneOrTerminated(s.cloud, i) else s.store.value.providerID.Empty? && s.pass.found.Missing?)
  }

  lemma RemovalLooked(s: State, e: Event, i: InstanceId)
    requires Reachable(s) && Safe(s) && i in s.cloud.created && Enabled(s, e)
    requires s.store.Some? && Apply(s, e).store.None?
    ensures RemovedAfterLooking(s, e, i)
  {
    SeenReachable(s);
    FinalizerLeaves(s, e);
    StoreEffect(s, e);
  }

  /** Somewhere along the run, machine n's object went after such a look for instance i. */
  ghost predicate LookedFor(events: seq<SystemEvent>, n: Name, i: InstanceId) {
    exists k, e :: 0 <= k < |events| && RemovedAt(events, k, n, e, i)
  }

  ghost predicate RemovedAt(events: seq<SystemEvent>, k: nat, n: Name, e: Event, i: InstanceId)
    requires k < |events|
  {
    && events[k] == MachineStep(n, e)
    && SystemReplay(events[..k]).Some? && n in SystemReplay(events[..k]).value.machines
    && RemovedAfterLooking(SystemReplay(events[..k]).value.machines[n], e, i)
  }

  lemma NoLaunchWithoutObject(s: State, e: Event)
    requires Inv(s) && s.store.None? && Enabled(s, e)
    ensures Apply(s, e).cloud.created == s.cloud.created
  {
    LaunchEffect(s, e);
  }

  /** The step that removes the object is the one that looked. */
  lemma LookedJustNow(events: seq<SystemEvent>, n: Name, e: Event, i: InstanceId)
    requires events != [] && events[|events| - 1] == MachineStep(n, e) && SystemReplay(events).Some?
    requires var before, after := SystemReplay(events[..|events| - 1]).value.machines[n], SystemReplay(events).value.machines[n];
             before.store.Some? && after.store.None? && i in after.cloud.created
    ensures LookedFor(events, n, i)
  {
    var last := |events| - 1;
    var s := SystemReplay(events[..last]).value.machines[n];
    SystemInvRun(events[..last]);
    MachinesReachable(events[..last]);
    LaunchEffect(s, e);
    StoreEffect(s, e);
    RemovalLooked(s, e, i);
    assert RemovedAt(events, last, n, e, i);
  }

  lemma LookedBefore(events: seq<SystemEvent>, n: Name, i: InstanceId)
    requires events != [] && LookedFor(events[..|events| - 1], n, i)
    ensures LookedFor(events, n, i)
  {
    var last := |events| - 1;
    var k, f :| 0 <= k < last && RemovedAt(events[..last], k, n, f, i);
    assert events[..last][..k] == events[..k];
    assert RemovedAt(events, k, n, f, i);
  }

  /** With the object gone already, the last step launched nothing for machine n. */
  lemma CreatedBefore(events: seq<SystemEvent>, n: Name, i: InstanceId)
    requires events != [] && SystemReplay(events).Some? && n in SystemReplay(events).value.machines
    requires var s := SystemReplay(events).value.machines[n];
             s.store.None? && i in s.cloud.created
    requires var s := SystemReplay(events[..|events| - 1]).value;
             n in s.machines ==> s.machines[n].store.None?
    ensures var s := SystemReplay(events[..|events| - 1]).value;
            n in s.machines && i in s.machines[n].cloud.created
  {
    var last := |events| - 1;
    SystemInvRun(events[..last]);
    var s := SystemReplay(events[..last]).value;
    if events[last].MachineStep? && events[last].name == n {
      NoLaunchWithoutObject(s.machines[n], events[last].e);
    }
  }

  /** A machine of the run whose object goes in the last step, which is one of its own. */
  lemma RemovalIsOwnStep(events: seq<SystemEvent>, n: Name)
    requires events != [] && SystemReplay(events).Some? && n in SystemReplay(events[..|events| - 1]).value.machines
    requires n in SystemReplay(events).value.machines
    requires SystemReplay(events[..|events| - 1]).value.machines[n].store.Some? && SystemReplay(events).value.machines[n].store.None?
    ensures events[|events| - 1].MachineStep? && events[|events| - 1].name == n
  {}

  lemma {:induction false} EveryInstanceLookedFor(events: seq<SystemEvent>, n: Name, i: InstanceId)
    requires SystemReplay(events).Some? && n in SystemReplay(events).value.machines
    requires var s := SystemReplay(events).value.machines[n];
             s.store.None? && i in s.cloud.created
    ensures LookedFor(events, n, i)
  {
    if events != [] {
      var last := |events| - 1;
      var s := SystemReplay(events[..last]).value;
      if n in s.machines && s.machines[n].store.Some? {
        RemovalIsOwnStep(events, n);
        LookedJustNow(events, n, events[last].e, i);
      } else {
        CreatedBefore(events, n, i);
        EveryInstanceLookedFor(events[..last], n, i);
        LookedBefore(events, n, i);
      }
    }
  }

  // ---------------------------------------------------------------------------------------------
  // Theorems
  // ---------------------------------------------------------------------------------------------

  /**
   No machine object is left and no launched instance is alive.  Every launched instance was looked for when its object
   went, and one that was ever recorded is gone or terminated, not merely shutting down.
   */
  ghost predicate AllObservedGone(events: seq<SystemEvent>)
    requires SystemReplay(events).Some?
  {
    var s := SystemReplay(events).value;
    && AllMachinesGone(s)
    && (forall n, i | n in s.machines && i in s.machines[n].cloud.created :: LookedFor(events, n, i))
    && (forall k, n, i | RecordedAt(events, k, n, i) :: n in s.machines && GoneOrTerminated(s.machines[n].cloud, i))
  }

  lemma GoneAreObserved(events: seq<SystemEvent>)
    requires SystemReplay(events).Some? && AllMachinesGone(SystemReplay(events).value)
    ensures AllObservedGone(events)
  {
    var s := SystemReplay(events).value;
    forall n, i | n in s.machines && i in s.machines[n].cloud.created
      ensures LookedFor(events, n, i)
    {
      EveryInstanceLookedFor(events, n, i);
    }
    forall k, n, i | RecordedAt(events, k, n, i)
      ensures n in s.machines && GoneOrTerminated(s.machines[n].cloud, i)
    {
      RecordedOrGoneRun(events, k, n, i);
    }
  }

  /** In every interleaving, whenever cluster resources are being deleted, every instance has been observed gone. */
  lemma ClusterWaitsForMachines(events: seq<SystemEvent>)
    requires SystemReplay(events).Some? && DeletingResources(SystemReplay(events).value.cluster)
    ensures AllObservedGone(events)
  {
    SystemInvRun(events);
    GoneAreObserved(events);
  }

  /** A cluster resource disappears only then, and only from a deleted cluster. */
  lemma ResourceRemovedAfterMachines(events: seq<SystemEvent>, e: SystemEvent)
    requires SystemReplay(events).Some? && SystemEnabled(SystemReplay(events).value, e)
    requires var s := SystemReplay(events).value;
             !(s.cluster.resources <= SystemApply(s, e).cluster.resources)
    ensures AllObservedGone(events)
    ensures SystemReplay(events).value.cluster.store.Some? && SystemReplay(events).value.cluster.store.value.deleted
  {
    SystemInvRun(events);
    ClusterWaitsForMachines(events);
  }

  /** The AWSCluster object is gone only when all its resources but a non-empty bucket are. */
  lemma NoOrphanClusterResource(events: seq<SystemEvent>)
    requires SystemReplay(events).Some? && SystemReplay(events).value.cluster.store.None?
    ensures OnlyStays(SystemReplay(events).value.cluster.resources)
  {
    SystemInvRun(events);
  }
}
