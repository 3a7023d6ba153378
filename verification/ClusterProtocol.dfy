/**
 The AWSCluster controller next to any number of AWSMachine controllers, interleaved call by call.

 controllers/awscluster_controller.go: reconcileNormal, reconcileDelete, dependencyCount.
 */
module ClusterProtocol {
  import opened Basics
  import opened MachineProtocol
  import opened MachineInvariant
  import opened MachineSafety

  // ---------------------------------------------------------------------------------------------
  // State
  // ---------------------------------------------------------------------------------------------

  datatype Kind = Network | SecurityGroups | Bastion | LoadBalancers | Bucket | External

  /** reconcileNormal, lines 334-365. */
  const EnsureOrder: seq<Kind> := [Network, SecurityGroups, Bastion, LoadBalancers, Bucket]

  /** reconcileDelete, lines 248-273; External is what the garbage collector looks for. */
  const RemoveOrder: seq<Kind> := [Bucket, LoadBalancers, Bastion, SecurityGroups, External, Network]

  /** Kinds a successful delete call may leave behind: a bucket that is not empty, and external resources. */
  predicate MayStay(k: Kind) {
    k.Bucket? || k.External?
  }

  datatype AWSCluster = AWSCluster(finalizer: bool, deleted: bool, ready: bool)

  datatype ClusterPC =
    | RegisterFinalizer
    | Ensure(next: nat)
    | CountMachines
    | Remove(step: nat)
    | ClosePass

  datatype ClusterPass =
    | Resting
    | Working(pc: ClusterPC, mem: AWSCluster, before: AWSCluster, errs: bool)

  datatype Cluster = Cluster(store: Option<AWSCluster>, resources: set<Kind>, pass: ClusterPass)

  type Name = string

  datatype System = System(machines: map<Name, State>, cluster: Cluster)

  // ---------------------------------------------------------------------------------------------
  // Events
  // ---------------------------------------------------------------------------------------------

  datatype ClusterEvent =
    | BeginCluster
    | ClusterPatched(o: PatchOutcome)
    | Ensured(created: bool, ok: bool)
    | Counted(ok: bool)
    | Removed(gone: bool, ok: bool)
    | CrashCluster
    | DeleteCluster

  datatype SystemEvent =
    | MachineStep(name: Name, e: Event)
    | AddMachine(added: Name, start: State)
    | ClusterStep(c: ClusterEvent)

  // ---------------------------------------------------------------------------------------------
  // Cluster steps
  // ---------------------------------------------------------------------------------------------

  function CollectCluster(st: AWSCluster): Option<AWSCluster> {
    if st.deleted && !st.finalizer then None else Some(st)
  }

  function PatchedCluster(store: Option<AWSCluster>, before: AWSCluster, mem: AWSCluster, o: PatchOutcome)
    : Option<AWSCluster>
  {
    if store.None? then None else
    var st := if o.spec then store.value.(finalizer := Merge(before.finalizer, mem.finalizer, store.value.finalizer))
              else store.value;
    if CollectCluster(st).None? then None else
    Some(if o.status then st.(ready := Merge(before.ready, mem.ready, st.ready)) else st)
  }

  predicate ClusterPatchPossible(c: Cluster, o: PatchOutcome) {
    && (!o.err ==> o.spec && o.status)
    && (c.store.None? ==> o.err && !o.spec && !o.status)
  }

  function FirstClusterCall(m: AWSCluster): ClusterPC {
    if m.deleted then (if m.finalizer then CountMachines else ClosePass)
    else if m.finalizer then Ensure(0) else RegisterFinalizer
  }

  predicate ClusterEnabled(c: Cluster, e: ClusterEvent) {
    match e
    case DeleteCluster => c.store.Some?
    case BeginCluster => c.pass.Resting? && c.store.Some?
    case CrashCluster => c.pass.Working?
    case ClusterPatched(o) =>
      c.pass.Working? && (c.pass.pc.RegisterFinalizer? || c.pass.pc.ClosePass?) && ClusterPatchPossible(c, o)
    case Ensured(_, _) => c.pass.Working? && c.pass.pc.Ensure? && c.pass.pc.next < |EnsureOrder|
    case Counted(_) => c.pass.Working? && c.pass.pc.CountMachines?
    case Removed(gone, ok) =>
      && c.pass.Working? && c.pass.pc.Remove? && c.pass.pc.step < |RemoveOrder|
      && (ok ==> gone || MayStay(RemoveOrder[c.pass.pc.step]))
  }

  /** dependencies: the number of AWSMachines listed when the pass counts them. */
  function ApplyCluster(c: Cluster, e: ClusterEvent, dependencies: nat): Cluster
    requires ClusterEnabled(c, e)
  {
    match e
    case DeleteCluster => c.(store := CollectCluster(c.store.value.(deleted := true)))
    case CrashCluster => c.(pass := Resting)
    case BeginCluster =>
      var m := c.store.value;
      var pc := FirstClusterCall(m);
      c.(pass := Working(pc, if pc.RegisterFinalizer? then m.(finalizer := true) else m, m, false))
    case ClusterPatched(o) =>
      var p := c.pass;
      var t := c.(store := PatchedCluster(c.store, p.before, p.mem, o));
      if p.pc.ClosePass? then t.(pass := Resting)
      else t.(pass := p.(pc := if o.err then ClosePass else Ensure(0)))
    case Ensured(created, ok) =>
      var p := c.pass;
      var k := EnsureOrder[p.pc.next];
      var t := c.(resources := if created then c.resources + {k} else c.resources);
      if !ok then t.(pass := p.(pc := ClosePass))
      else if p.pc.next + 1 < |EnsureOrder| then t.(pass := p.(pc := Ensure(p.pc.next + 1)))
      else t.(pass := p.(mem := p.mem.(ready := true), pc := ClosePass))
    case Counted(ok) =>
      c.(pass := c.pass.(pc := if !ok || dependencies > 0 then ClosePass else Remove(0)))
    case Removed(gone, ok) =>
      var p := c.pass;
      var k := RemoveOrder[p.pc.step];
      var errs := p.errs || !ok;
      var t := c.(resources := if gone then c.resources - {k} else c.resources);
      if p.pc.step + 1 < |RemoveOrder| then t.(pass := p.(pc := Remove(p.pc.step + 1), errs := errs))
      else t.(pass := p.(mem := p.mem.(finalizer := p.mem.finalizer && errs), errs := errs, pc := ClosePass))
  }

  // ---------------------------------------------------------------------------------------------
  // System steps and runs
  // ---------------------------------------------------------------------------------------------

  /** The names of the AWSMachines the API server still lists for the cluster. */
  function Listed(s: System): set<Name> {
    set n | n in s.machines && s.machines[n].store.Some?
  }

  /** Machines are only added while the cluster exists without deletion timestamp. */
  predicate SystemEnabled(s: System, e: SystemEvent) {
    match e
    case MachineStep(n, m) => n in s.machines && Enabled(s.machines[n], m) && Undisturbed(s.machines[n], m)
    case AddMachine(n, start) =>
      n !in s.machines && Init(start) && s.cluster.store.Some? && !s.cluster.store.value.deleted
    case ClusterStep(c) => ClusterEnabled(s.cluster, c)
  }

  function SystemApply(s: System, e: SystemEvent): System
    requires SystemEnabled(s, e)
  {
    match e
    case MachineStep(n, m) => s.(machines := s.machines[n := Apply(s.machines[n], m)])
    case AddMachine(n, start) => s.(machines := s.machines[n := start])
    case ClusterStep(c) => s.(cluster := ApplyCluster(s.cluster, c, |Listed(s)|))
  }

  const NewSystem := System(map[], Cluster(Some(AWSCluster(false, false, false)), {}, Resting))

  function SystemReplay(events: seq<SystemEvent>): Option<System> {
    if events == [] then Some(NewSystem) else
    var last := |events| - 1;
    match SystemReplay(events[..last])
    case None => None
    case Some(s) => if SystemEnabled(s, events[last]) then Some(SystemApply(s, events[last])) else None
  }

  // ---------------------------------------------------------------------------------------------
  // Invariant
  // ---------------------------------------------------------------------------------------------

  predicate MachinesOk(s: System) {
    forall n | n in s.machines :: Inv(s.machines[n]) && Safe(s.machines[n])
  }

  /** No AWSMachine object is left, and no instance launched for one is still alive. */
  predicate AllMachinesGone(s: System) {
    forall n | n in s.machines :: s.machines[n].store.None? && NoneLeft(s.machines[n])
  }

  predicate OnlyStays(resources: set<Kind>) {
    forall k | k in resources :: MayStay(k)
  }

  predicate ClusterFinalized(c: Cluster) {
    c.store.Some? && c.store.value.finalizer
  }

  predicate RemovingOk(c: Cluster)
    requires c.pass.Working?
  {
    c.pass.pc.Remove? && !c.pass.errs ==>
      forall i | 0 <= i < c.pass.pc.step && i < |RemoveOrder| :: RemoveOrder[i] in c.resources ==> MayStay(RemoveOrder[i])
  }

  predicate WorkingInv(c: Cluster)
    requires c.pass.Working?
  {
    var p := c.pass;
    && (p.before.finalizer ==> ClusterFinalized(c))
    && (c.store.Some? && p.before.deleted ==> c.store.value.deleted)
    && p.mem.deleted == p.before.deleted
    && (p.before.deleted ==> p.before.finalizer)
    && (p.pc.RegisterFinalizer? ==> !p.mem.deleted && p.mem.finalizer)
    && (p.pc.Ensure? ==> ClusterFinalized(c) && !p.mem.deleted && p.mem.finalizer)
    && (p.pc.CountMachines? || p.pc.Remove? ==> p.mem.deleted && p.mem.finalizer)
    && (c.store.Some? && c.store.value.finalizer ==> p.before.finalizer || p.mem.finalizer)
    && RemovingOk(c)
    && (p.before.finalizer && !p.mem.finalizer ==> p.pc.ClosePass? && p.mem.deleted && OnlyStays(c.resources))
  }

  predicate ClusterInv(c: Cluster) {
    && (c.store.Some? && c.store.value.deleted ==> c.store.value.finalizer)
    && (!ClusterFinalized(c) ==> OnlyStays(c.resources))
    && (c.pass.Working? ==> WorkingInv(c))
  }

  /** The pass is deleting cluster resources, or has just finished doing so. */
  predicate DeletingResources(c: Cluster) {
    c.pass.Working? && (c.pass.pc.Remove? || (c.pass.before.finalizer && !c.pass.mem.finalizer))
  }

  predicate SystemInv(s: System) {
    && MachinesOk(s)
    && ClusterInv(s.cluster)
    && (DeletingResources(s.cluster) ==> AllMachinesGone(s))
  }

  lemma EveryKindIsRemoved(k: Kind)
    ensures exists i :: 0 <= i < |RemoveOrder| && RemoveOrder[i] == k
  {
    var i := match k case Bucket => 0 case LoadBalancers => 1 case Bastion => 2
                     case SecurityGroups => 3 case External => 4 case Network => 5;
    assert RemoveOrder[i] == k;
  }

  /** Once every kind's delete call succeeded in one pass, only what may stay is left. */
  lemma LastRemoval(c: Cluster, e: ClusterEvent)
    requires ClusterInv(c) && ClusterEnabled(c, e) && e.Removed? && e.ok && !c.pass.errs
    requires c.pass.pc.step + 1 == |RemoveOrder|
    ensures OnlyStays(ApplyCluster(c, e, 0).resources)
  {
    forall k | k in ApplyCluster(c, e, 0).resources
      ensures MayStay(k)
    {
      EveryKindIsRemoved(k);
    }
  }

  lemma ClusterInvStep(c: Cluster, e: ClusterEvent, n: nat)
    requires ClusterInv(c) && ClusterEnabled(c, e)
    ensures ClusterInv(ApplyCluster(c, e, n))
  {
    if e.Removed? && e.ok && !c.pass.errs && c.pass.pc.step + 1 == |RemoveOrder| {
      LastRemoval(c, e);
    }
  }

  lemma GoneStays(s: State, e: Event)
    requires Inv(s) && Safe(s) && s.store.None? && NoneLeft(s) && Enabled(s, e) && Undisturbed(s, e)
    ensures Apply(s, e).store.None? && NoneLeft(Apply(s, e))
  {
    StoreNeverReturns(s, e);
    SafeStep(s, e);
  }

  lemma InvMachineStep(s: System, n: Name, m: Event)
    requires SystemInv(s) && SystemEnabled(s, MachineStep(n, m))
    ensures SystemInv(SystemApply(s, MachineStep(n, m)))
  {
    InvStep(s.machines[n], m);
    SafeStep(s.machines[n], m);
    if DeletingResources(s.cluster) {
      GoneStays(s.machines[n], m);
    }
  }

  lemma InvAddMachine(s: System, n: Name, start: State)
    requires SystemInv(s) && SystemEnabled(s, AddMachine(n, start))
    ensures SystemInv(SystemApply(s, AddMachine(n, start)))
  {
    InvInit(start);
    SafeInit(start);
  }

  lemma InvClusterStep(s: System, c: ClusterEvent)
    requires SystemInv(s) && SystemEnabled(s, ClusterStep(c))
    ensures SystemInv(SystemApply(s, ClusterStep(c)))
  {
    ClusterInvStep(s.cluster, c, |Listed(s)|);
    if c.Counted? && |Listed(s)| == 0 {
      assert Listed(s) == {};
      assert forall n | n in s.machines :: n !in Listed(s);
    }
  }

  lemma SystemInvStep(s: System, e: SystemEvent)
    requires SystemInv(s) && SystemEnabled(s, e)
    ensures SystemInv(SystemApply(s, e))
  {
    match e {
      case MachineStep(n, m) => InvMachineStep(s, n, m);
      case AddMachine(n, start) => InvAddMachine(s, n, start);
      case ClusterStep(c) => InvClusterStep(s, c);
    }
  }

  lemma {:induction false} SystemInvRun(events: seq<SystemEvent>)
    requires SystemReplay(events).Some?
    ensures SystemInv(SystemReplay(events).value)
  {
    if events != [] {
      var last := |events| - 1;
      SystemInvRun(events[..last]);
      SystemInvStep(SystemReplay(events[..last]).value, events[last]);
    }
  }
}
