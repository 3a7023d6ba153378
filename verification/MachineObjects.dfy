/** The bootstrap object in the object store: when it goes with its machine, and when it stays. */
module MachineObjects {
  import opened Basics
  import opened MachineProtocol
  import opened MachineInvariant
  import opened MachineFrames
  import opened MachineSafety
  import opened MachineHosts

  // ---------------------------------------------------------------------------------------------
  // What every step keeps
  // ---------------------------------------------------------------------------------------------

  /** reconcileDelete past deleteBootstrapData. */
  predicate AfterDrop(p: Pass)
    requires p.Active?
  {
    p.mem.deleted && (IsDeleting(p.pc) || (p.before.finalizer && !p.mem.finalizer))
  }

  predicate ObjectInv(s: State) {
    && (s.cloud.bucketObject ==> UsesObjectStore(s.cfg) && s.cfg.objectStore && !s.cfg.pool)
    && (s.pass.Active? && AfterDrop(s.pass) && s.pass.dataRef ==> !s.cloud.bucketObject)
    && (s.pass.Active? && s.store.None? ==> !s.cloud.bucketObject)
  }

  lemma ObjectEnvironment(s: State, e: Event)
    requires Inv(s) && ObjectInv(s) && EnvironmentEvent(e) && EnvironmentEnabled(s, e)
    ensures ObjectInv(ApplyEnvironment(s, e))
  {}

  lemma ObjectCreate(s: State, e: Event)
    requires Inv(s) && ObjectInv(s) && s.pass.Active? && s.pass.pc.CreateObject? && CallEnabled(s, e)
    ensures ObjectInv(StepUserData(s, e))
  {}

  lemma ObjectDrop(s: State, e: Event)
    requires Inv(s) && ObjectInv(s) && s.pass.Active? && s.pass.pc.DropObject? && CallEnabled(s, e)
    ensures ObjectInv(StepDrop(s, e))
  {}

  /** A live pass is not deleting anything. */
  lemma LiveUntilDropped(s: State)
    requires Inv(s) && s.pass.Active? && (IsLaunching(s.pass.pc) || s.pass.pc.Settle? || s.pass.pc.Finish?)
    ensures !s.pass.mem.deleted
  {}

  lemma DropsFirst(s: State, e: Event)
    requires Inv(s) && s.pass.Active? && (s.pass.pc.DropRaw? || s.pass.pc.DropSecrets?) && CallEnabled(s, e)
    ensures StepDrop(s, e).pass.Active? && !IsDeleting(StepDrop(s, e).pass.pc)
    ensures StepDrop(s, e).pass.mem.finalizer == s.pass.mem.finalizer && StepDrop(s, e).pass.before == s.pass.before
  {}

  /** Patches within a pass do not remove the object. */
  lemma StoreStays(s: State, e: Event)
    requires Inv(s) && ControlShape(s) && CallEnabled(s, e) && !s.pass.pc.Close? && s.store.Some?
    ensures ApplyCall(s, e).store.Some?
  {
    FrameCall(s, e);
    if e.Patched? {
      PatchKeeps(s, e);
    }
  }

  lemma PatchKeeps(s: State, e: Event)
    requires Inv(s) && s.pass.Active? && IsPatch(s.pass.pc) && e.Patched? && CallEnabled(s, e) && s.store.Some?
    ensures PatchedStore(s.store, s.pass.before, s.pass.mem, e.o).Some?
  {}

  lemma ObjectCall(s: State, e: Event)
    requires Inv(s) && ObjectInv(s) && ControlShape(s) && CallEnabled(s, e)
    ensures ObjectInv(ApplyCall(s, e))
  {
    var pc := s.pass.pc;
    if pc.CreateObject? {
      ObjectCreate(s, e);
    } else if pc.DropObject? {
      ObjectDrop(s, e);
    } else {
      FrameCall(s, e);
      if !pc.Close? && s.store.Some? {
        StoreStays(s, e);
      }
      if IsLaunching(pc) || pc.Settle? || pc.Finish? {
        LiveUntilDropped(s);
      } else if pc.DropRaw? || pc.DropSecrets? {
        DropsFirst(s, e);
      }
    }
  }

  lemma ObjectStep(s: State, e: Event)
    requires Inv(s) && ObjectInv(s) && Enabled(s, e)
    ensures ObjectInv(Apply(s, e))
  {
    if EnvironmentEvent(e) {
      ObjectEnvironment(s, e);
    } else if s.pass.Active? && !e.Crash? {
      ObjectCall(s, e);
    }
  }

  lemma {:induction false} ObjectRun(s0: State, events: seq<Event>)
    requires Init(s0) && Replay(s0, events).Some?
    ensures ObjectInv(Replay(s0, events).value) && Inv(Replay(s0, events).value)
  {
    InvInit(s0);
    InvFrom(s0, events);
    if events != [] {
      var last := |events| - 1;
      InvFrom(s0, events[..last]);
      ObjectRun(s0, events[..last]);
      ObjectStep(Replay(s0, events[..last]).value, events[last]);
    }
  }

  lemma ObjectReachable(s: State)
    requires Reachable(s)
    ensures ObjectInv(s) && Inv(s)
  {
    var s0, events :| Init(s0) && Replay(s0, events) == Some(s);
    ObjectRun(s0, events);
  }

  // ---------------------------------------------------------------------------------------------
  // One deletion pass
  // ---------------------------------------------------------------------------------------------

  /** A deleting pass touches the bootstrap object only if the Machine names its bootstrap data. */
  lemma UnnamedUntouched(s: State, e: Event)
    requires Inv(s) && s.pass.Active? && s.pass.mem.deleted && !s.pass.dataRef && Enabled(s, e)
    ensures Apply(s, e).cloud.bucketObject == s.cloud.bucketObject
  {
    CallEffect(s, e);
    if s.pass.pc.CreateObject? {
      LiveUntilDropped(s);
    }
  }

  lemma {:induction false} UnnamedRun(s: State, events: seq<Event>)
    requires Inv(s) && s.pass.Active? && s.pass.mem.deleted && !s.pass.dataRef
    requires Replay(s, events).Some? && Replay(s, events).value.pass.Active?
    requires forall k | 0 <= k < |events| :: !events[k].Begin?
    ensures var t := Replay(s, events).value;
            t.cloud.bucketObject == s.cloud.bucketObject && t.pass.mem.deleted && !t.pass.dataRef
  {
    if events != [] {
      var last := |events| - 1;
      var u := Replay(s, events[..last]).value;
      InvFrom(s, events[..last]);
      if u.pass.Active? {
        UnnamedRun(s, events[..last]);
        UnnamedUntouched(u, events[last]);
        CallEffect(u, events[last]);
      }
    }
  }

  lemma {:induction false} NamedRun(s: State, events: seq<Event>)
    requires s.pass.Active? && Replay(s, events).Some? && Replay(s, events).value.pass.Active?
    requires forall k | 0 <= k < |events| :: !events[k].Begin?
    ensures Replay(s, events).value.pass.dataRef == s.pass.dataRef
    ensures Replay(s, events).value.pass.mem.deleted == s.pass.mem.deleted
  {
    if events != [] {
      var last := |events| - 1;
      var u := Replay(s, events[..last]).value;
      if u.pass.Active? {
        NamedRun(s, events[..last]);
        CallEffect(u, events[last]);
      }
    }
  }

  /** The step that removes the API object does not touch the bootstrap object. */
  lemma RemovalLeavesObject(t: State, e: Event)
    requires Reachable(t) && t.pass.Active? && t.pass.mem.deleted && Finalized(t) && Enabled(t, e) && Apply(t, e).store.None?
    ensures Apply(t, e).cloud.bucketObject == t.cloud.bucketObject
    ensures t.pass.dataRef ==> !t.cloud.bucketObject
  {
    ObjectReachable(t);
    FinalizerLeaves(t, e);
    StoreEffect(t, e);
    CallEffect(t, e);
  }

  /**
   A deletion pass begins in s and goes on to t, where its last patch removes the API object.  The bootstrap object
   stays if and only if it was there when the pass began and the Machine named no bootstrap data then.
   */
  lemma ObjectLeftIff(s: State, dataRef: bool, events: seq<Event>, e: Event)
    requires Reachable(s) && s.pass.Idle? && Finalized(s) && s.store.value.deleted
    requires forall k | 0 <= k < |events| :: !events[k].Begin?
    requires Replay(ApplyBegin(s, dataRef), events).Some?
    requires var t := Replay(ApplyBegin(s, dataRef), events).value;
             t.pass.Active? && Finalized(t) && Enabled(t, e) && Apply(t, e).store.None?
    ensures Apply(Replay(ApplyBegin(s, dataRef), events).value, e).cloud.bucketObject <==> s.cloud.bucketObject && !dataRef
  {
    var b := ApplyBegin(s, dataRef);
    assert b == Apply(s, Begin(dataRef));
    ReachableStep(s, Begin(dataRef));
    InvReachable(b);
    ReachableFrom(b, events);
    NamedRun(b, events);
    RemovalLeavesObject(Replay(b, events).value, e);
    if !dataRef {
      UnnamedRun(b, events);
    }
  }

  /** Once the API object is gone, nothing happens to the bootstrap object any more. */
  lemma GoneObjectFixed(s: State, e: Event)
    requires Inv(s) && ObjectInv(s) && s.store.None? && Enabled(s, e)
    ensures Apply(s, e).cloud.bucketObject == s.cloud.bucketObject
  {
    CallEffect(s, e);
    if s.pass.Active? && s.pass.pc.CreateObject? {
      UploadsUnderObject(s);
    }
  }

  lemma UploadsUnderObject(s: State)
    requires Inv(s) && s.pass.Active? && s.pass.pc.CreateObject?
    ensures s.store.Some?
  {}
}
