/**
 The reconcile functions of the AWSCluster controller in their own shape.

 Every method is proved to take only steps of the system in ClusterProtocol.dfy, while machine controllers and users
 do anything the system allows between two calls.

 controllers/awscluster_controller.go: Reconcile, reconcileDelete, reconcileNormal.
 */
module ClusterController {
  import opened Basics
  import opened MachineProtocol
  import opened ClusterProtocol
  import opened ClusterSafety

  lemma Extended(log: seq<SystemEvent>, s: System, e: SystemEvent)
    requires SystemReplay(log) == Some(s) && SystemEnabled(s, e)
    ensures SystemReplay(log + [e]) == Some(SystemApply(s, e))
  {
    var longer := log + [e];
    assert longer[..|longer| - 1] == log;
  }

  class ClusterReconciler {
    // the world
    var machines: map<Name, State>
    var store: Option<AWSCluster>
    var resources: set<Kind>

    // the pass under way: cluster scope and patch helper
    var pass: ClusterPass

    ghost var log: seq<SystemEvent>

    function Now(): System
      reads this
    {
      System(machines, Cluster(store, resources, pass))
    }

    /** The run so far is a run of the system. */
    ghost predicate Valid()
      reads this
    {
      SystemReplay(log) == Some(Now())
    }

    constructor ()
      ensures Valid() && Now() == NewSystem && log == []
    {
      machines, store, resources, pass := map[], Some(AWSCluster(false, false, false)), {}, Resting;
      log := [];
    }

    /** Machine controllers and users may take any number of steps while a call is under way. */
    method Interfere()
      requires Valid()
      modifies `machines, `store, `log
      ensures Valid() && old(log) <= log
    {
      var n: nat := *;
      while n > 0
        invariant Valid() && old(log) <= log
      {
        var e: SystemEvent := *;
        if (!e.ClusterStep? || e.c.DeleteCluster?) && SystemEnabled(Now(), e) {
          Extended(log, Now(), e);
          var t := SystemApply(Now(), e);
          machines, store := t.machines, t.cluster.store;
          log := log + [e];
        }
        n := n - 1;
      }
    }

    /** Control arrives at t after the outcome e: this must be a step of the system. */
    method Arrive(e: ClusterEvent, t: Cluster)
      requires Valid() && ClusterEnabled(Now().cluster, e) && t == ApplyCluster(Now().cluster, e, |Listed(Now())|)
      modifies `store, `resources, `pass, `log
      ensures Valid() && Now().cluster == t && old(log) <= log
    {
      Extended(log, Now(), ClusterStep(e));
      store, resources, pass := t.store, t.resources, t.pass;
      log := log + [ClusterStep(e)];
    }

    /** The process may die during any call. */
    method Die()
      requires Valid() && pass.Working?
      modifies `store, `resources, `pass, `log
      ensures Valid() && pass.Resting? && old(log) <= log
    {
      Arrive(CrashCluster, Now().cluster.(pass := Resting));
    }

    // -------------------------------------------------------------------------------------------
    // reconcileDelete
    // -------------------------------------------------------------------------------------------

    /** One delete call: whatever it reports, the pass goes on, and remembers that there was an error. */
    method Delete(step: nat, allErrs: bool) returns (died: bool, allErrs': bool)
      requires Valid() && step + 1 < |RemoveOrder|
      requires pass.Working? && pass.pc == Remove(step) && pass.errs == allErrs
      modifies `machines, `store, `resources, `pass, `log
      ensures Valid() && old(log) <= log
      ensures died ==> pass.Resting?
      ensures !died ==> pass == old(pass).(pc := Remove(step + 1), errs := allErrs')
    {
      Interfere();
      died := *;
      if died {
        Die();
        return true, allErrs;
      }
      var ok: bool := *;
      var gone: bool := *;
      gone := gone || (ok && !MayStay(RemoveOrder[step]));
      allErrs' := allErrs || !ok;
      var left := if gone then resources - {RemoveOrder[step]} else resources;
      Arrive(Removed(gone, ok), Cluster(store, left, pass.(pc := Remove(step + 1), errs := allErrs')));
    }

    /** networkSvc.DeleteNetwork, and the finalizer if no call failed. */
    method DeleteNetwork(allErrs: bool) returns (died: bool)
      requires Valid() && pass.Working? && pass.pc == Remove(5) && pass.errs == allErrs && pass.mem.finalizer
      modifies `machines, `store, `resources, `pass, `log
      ensures Valid() && old(log) <= log
      ensures if died then pass.Resting? else pass.Working? && pass.pc.ClosePass?
      ensures !died && !pass.mem.finalizer ==> !allErrs && Network !in resources
    {
      Interfere();
      died := *;
      if died {
        Die();
        return true;
      }
      var ok: bool := *;
      var gone: bool := *;
      gone := gone || ok;
      var left := if gone then resources - {Network} else resources;
      var errs := allErrs || !ok;
      var mem := if errs then pass.mem else pass.mem.(finalizer := false);
      Arrive(Removed(gone, ok), Cluster(store, left, Working(ClosePass, mem, pass.before, errs)));
    }

    /** dependencyCount: anything but a count of zero ends the pass. */
    method CountDependencies() returns (died: bool, proceed: bool)
      requires Valid() && pass.Working? && pass.pc.CountMachines?
      modifies `machines, `store, `resources, `pass, `log
      ensures Valid() && old(log) <= log
      ensures died ==> pass.Resting?
      ensures !died ==> pass == old(pass).(pc := if proceed then Remove(0) else ClosePass)
      ensures !died && proceed ==> Listed(Now()) == {}
    {
      Interfere();
      died := *;
      if died {
        Die();
        return true, false;
      }
      var ok: bool := *;
      var numDependencies := |Listed(Now())|;
      proceed := ok && numDependencies == 0;
      Arrive(Counted(ok), Cluster(store, resources, pass.(pc := if proceed then Remove(0) else ClosePass)));
    }

    /** The bucket, the load balancers and the bastion. */
    method DeleteInstances() returns (died: bool, allErrs: bool)
      requires Valid() && pass.Working? && pass.pc == Remove(0) && !pass.errs
      modifies `machines, `store, `resources, `pass, `log
      ensures Valid() && old(log) <= log
      ensures died ==> pass.Resting?
      ensures !died ==> pass == old(pass).(pc := Remove(3), errs := allErrs)
    {
      died, allErrs := Delete(0, false);
      if died {
        return;
      }
      died, allErrs := Delete(1, allErrs);
      if died {
        return;
      }
      died, allErrs := Delete(2, allErrs);
    }

    /** The security groups, what other controllers left, and the network. */
    method DeleteRest(errs: bool) returns (died: bool)
      requires Valid() && pass.Working? && pass.pc == Remove(3) && pass.errs == errs && pass.mem.finalizer
      modifies `machines, `store, `resources, `pass, `log
      ensures Valid() && old(log) <= log
      ensures if died then pass.Resting? else pass.Working? && pass.pc.ClosePass?
    {
      var allErrs;
      died, allErrs := Delete(3, errs);
      if died {
        return;
      }
      died, allErrs := Delete(4, allErrs);
      if died {
        return;
      }
      died := DeleteNetwork(allErrs);
    }

    method ReconcileDelete() returns (died: bool)
      requires Valid() && pass.Working? && pass.mem.deleted && pass.pc == FirstClusterCall(pass.mem) && !pass.errs
      modifies `machines, `store, `resources, `pass, `log
      ensures Valid() && old(log) <= log
      ensures if died then pass.Resting? else pass.Working? && pass.pc.ClosePass?
    {
      if !pass.mem.finalizer {
        return false;
      }
      var proceed;
      died, proceed := CountDependencies();
      if died || !proceed {
        return;
      }
      var allErrs;
      died, allErrs := DeleteInstances();
      if died {
        return;
      }
      died := DeleteRest(allErrs);
    }

    // -------------------------------------------------------------------------------------------
    // reconcileNormal
    // -------------------------------------------------------------------------------------------

    /** clusterScope.PatchObject: the request may be lost, or succeed and be reported as failed. */
    method Patch() returns (o: PatchOutcome)
      requires Valid()
      ensures ClusterPatchPossible(Now().cluster, o)
    {
      o := *;
      if !ClusterPatchPossible(Now().cluster, o) {
        o := PatchOutcome(false, false, true);
      }
    }

    /** The finalizer is persisted before anything is created. */
    method RegisterFinalizer() returns (died: bool)
      requires Valid() && pass.Working? && pass.pc.RegisterFinalizer?
      modifies `machines, `store, `resources, `pass, `log
      ensures Valid() && old(log) <= log
      ensures died ==> pass.Resting?
      ensures !died ==> pass == old(pass).(pc := Ensure(0)) || pass == old(pass).(pc := ClosePass)
    {
      Interfere();
      died := *;
      if died {
        Die();
        return true;
      }
      var o := Patch();
      var patched := PatchedCluster(store, pass.before, pass.mem, o);
      Arrive(ClusterPatched(o), Cluster(patched, resources, pass.(pc := if o.err then ClosePass else Ensure(0))));
    }

    /** One reconcile call: the first error, or a request to come back later, ends the pass. */
    method EnsureKind(n: nat) returns (died: bool)
      requires Valid() && pass.Working? && n < |EnsureOrder| && pass.pc == Ensure(n)
      modifies `machines, `store, `resources, `pass, `log
      ensures Valid() && old(log) <= log
      ensures died ==> pass.Resting?
      ensures !died && n + 1 < |EnsureOrder| ==>
                pass == old(pass).(pc := Ensure(n + 1)) || pass == old(pass).(pc := ClosePass)
      ensures !died && n + 1 == |EnsureOrder| ==> pass.Working? && pass.pc.ClosePass?
    {
      Interfere();
      died := *;
      if died {
        Die();
        return true;
      }
      var ok: bool := *;
      var created: bool := *;
      var more := if created then resources + {EnsureOrder[n]} else resources;
      var next := pass;
      if !ok {
        next := next.(pc := ClosePass);
      } else if n + 1 < |EnsureOrder| {
        next := next.(pc := Ensure(n + 1));
      } else {
        next := next.(mem := next.mem.(ready := true), pc := ClosePass);
      }
      Arrive(Ensured(created, ok), Cluster(store, more, next));
    }

    method EnsureFirst() returns (died: bool)
      requires Valid() && pass.Working? && pass.pc == Ensure(0)
      modifies `machines, `store, `resources, `pass, `log
      ensures Valid() && old(log) <= log
      ensures if died then pass.Resting? else pass.Working? && (pass.pc.ClosePass? || pass.pc == Ensure(2))
    {
      died := EnsureKind(0);
      if died || pass.pc.ClosePass? {
        return;
      }
      died := EnsureKind(1);
    }

    method EnsureRest() returns (died: bool)
      requires Valid() && pass.Working? && pass.pc == Ensure(2)
      modifies `machines, `store, `resources, `pass, `log
      ensures Valid() && old(log) <= log
      ensures if died then pass.Resting? else pass.Working? && pass.pc.ClosePass?
    {
      died := EnsureKind(2);
      if died || pass.pc.ClosePass? {
        return;
      }
      died := EnsureKind(3);
      if died || pass.pc.ClosePass? {
        return;
      }
      died := EnsureKind(4);
    }

    method ReconcileNormal() returns (died: bool)
      requires Valid() && pass.Working? && (pass.pc.RegisterFinalizer? || pass.pc == Ensure(0))
      modifies `machines, `store, `resources, `pass, `log
      ensures Valid() && old(log) <= log
      ensures if died then pass.Resting? else pass.Working? && pass.pc.ClosePass?
    {
      died := false;
      if pass.pc.RegisterFinalizer? {
        died := RegisterFinalizer();
        if died || pass.pc.ClosePass? {
          return;
        }
      }
      died := EnsureFirst();
      if died || pass.pc.ClosePass? {
        return;
      }
      died := EnsureRest();
    }

    // -------------------------------------------------------------------------------------------
    // Reconcile
    // -------------------------------------------------------------------------------------------

    /** clusterScope.Close: the deferred patch. */
    method Close()
      requires Valid() && pass.Working? && pass.pc.ClosePass?
      modifies `machines, `store, `resources, `pass, `log
      ensures Valid() && pass.Resting? && old(log) <= log
    {
      Interfere();
      var o := Patch();
      var patched := PatchedCluster(store, pass.before, pass.mem, o);
      Arrive(ClusterPatched(o), Cluster(patched, resources, Resting));
    }

    /** Reads the object and creates the scope with its patch helper. */
    method Start()
      requires Valid() && pass.Resting? && store.Some?
      modifies `store, `resources, `pass, `log
      ensures Valid() && old(log) <= log
      ensures pass.Working? && !pass.errs && pass.before == old(store).value
      ensures pass.pc == FirstClusterCall(pass.before)
      ensures pass.mem == if pass.pc.RegisterFinalizer? then pass.before.(finalizer := true) else pass.before
    {
      var m := store.value;
      var pc := FirstClusterCall(m);
      var mem := if pc.RegisterFinalizer? then m.(finalizer := true) else m;
      Arrive(BeginCluster, Cluster(store, resources, Working(pc, mem, m, false)));
    }

    /**
     A whole pass is a run of the system's steps, so every theorem about runs holds of it: in particular nothing is
     deleted before every instance has been observed gone.
     */
    method Reconcile()
      requires Valid() && pass.Resting? && store.Some?
      modifies `machines, `store, `resources, `pass, `log
      ensures Valid() && pass.Resting? && old(log) <= log
      ensures store.None? ==> OnlyStays(resources)
      ensures !(old(resources) <= resources) ==> exists n | |old(log)| <= n < |log| ::
                SystemReplay(log[..n]).Some? && AllObservedGone(log[..n])
    {
      Start();
      var died;
      if pass.mem.deleted {
        died := ReconcileDelete();
      } else {
        died := ReconcileNormal();
      }
      if !died {
        Close();
      }
      SystemInvRun(log);
      if !(old(resources) <= resources) {
        ghost var n := FirstLoss(old(log), log, old(Now()), Now());
      }
    }
  }

  /** Where a resource was lost along a run, every machine was gone. */
  lemma {:induction false} FirstLoss(early: seq<SystemEvent>, log: seq<SystemEvent>, s: System, t: System) returns (n: nat)
    requires early <= log && SystemReplay(early) == Some(s) && SystemReplay(log) == Some(t)
    requires !(s.cluster.resources <= t.cluster.resources)
    ensures |early| <= n < |log| && SystemReplay(log[..n]).Some? && AllObservedGone(log[..n])
  {
    var last := |log| - 1;
    if early == log {
      assert false;
    }
    assert early <= log[..last];
    var u := SystemReplay(log[..last]).value;
    if s.cluster.resources <= u.cluster.resources {
      n := last;
      ResourceRemovedAfterMachines(log[..last], log[last]);
    } else {
      n := FirstLoss(early, log[..last], s, u);
      assert log[..last][..n] == log[..n];
    }
  }
}
