/** Safety of the machine controller over whole runs with failures, crashes and interference. */
module MachineSafety {
  import opened Basics
  import opened MachineProtocol
  import opened MachineInvariant
  import opened MachineFrames

  // ---------------------------------------------------------------------------------------------
  // What a step can change at all
  // ---------------------------------------------------------------------------------------------

  lemma StoreEffect(s: State, e: Event)
    requires Enabled(s, e)
    ensures Apply(s, e).store ==
              if e.UserDelete? then Collect(s.store.value.(deleted := true))
              else if e.Patched? then PatchedStore(s.store, s.pass.before, s.pass.mem, e.o)
              else s.store
  {
    CallEffect(s, e);
  }

  /** What a step does is done by the environment, the read, a crash, or a call. */
  lemma CallEffect(s: State, e: Event)
    requires Enabled(s, e)
    ensures !EnvironmentEvent(e) && s.pass.Active? && !e.Crash? ==>
              ControlShape(s) && CallEnabled(s, e) && Apply(s, e) == ApplyCall(s, e) && Frame(s, e, ApplyCall(s, e)) && EventPoint(s, e)
    ensures EnvironmentEvent(e) ==> Apply(s, e) == ApplyEnvironment(s, e)
    ensures !EnvironmentEvent(e) && s.pass.Idle? ==> e.Begin? && Apply(s, e) == ApplyBegin(s, e.dataRef)
    ensures !EnvironmentEvent(e) && s.pass.Active? && e.Crash? ==> Apply(s, e) == s.(pass := Idle)
  {
    if !EnvironmentEvent(e) && s.pass.Active? && !e.Crash? {
      FrameCall(s, e);
    }
  }

  lemma LaunchEffect(s: State, e: Event)
    requires Enabled(s, e)
    ensures Apply(s, e).cloud.created == if e.Launched? then s.cloud.created + {e.id} else s.cloud.created
    ensures e.Launched? ==> s.pass.Active? && s.pass.pc.Launch?
  {
    CallEffect(s, e);
  }

  lemma HostEffect(s: State, e: Event)
    requires Enabled(s, e) && !e.HostAllocated?
    ensures Apply(s, e).cloud.hosts <= s.cloud.hosts
  {
    CallEffect(s, e);
  }

  lemma SecretsEffect(s: State, e: Event)
    requires Enabled(s, e)
    ensures !e.SecretsCreated? ==> Apply(s, e).cloud.secrets <= s.cloud.secrets
    ensures !e.SecretsDeleted? ==> s.cloud.secrets <= Apply(s, e).cloud.secrets
    ensures e.SecretsCreated? ==> s.pass.Active? && s.pass.pc.CreateSecrets?
    ensures e.SecretsDeleted? ==> s.pass.Active? && s.pass.pc.DropSecrets? && DecideSecrets(s.cfg, s.pass).DeleteSecret?
  {
    CallEffect(s, e);
  }

  lemma ObjectEffect(s: State, e: Event)
    requires Enabled(s, e)
    ensures !e.ObjectCreated? && Apply(s, e).cloud.bucketObject ==> s.cloud.bucketObject
    ensures !e.ObjectDeleted? && s.cloud.bucketObject ==> Apply(s, e).cloud.bucketObject
    ensures e.ObjectCreated? ==> s.pass.Active? && s.pass.pc.CreateObject?
    ensures e.ObjectDeleted? ==> s.pass.Active? && s.pass.pc.DropObject? && ObjectStepNeeded(s.cfg, s.pass)
  {
    CallEffect(s, e);
  }

  // ---------------------------------------------------------------------------------------------
  // Facts about every step of every run
  // ---------------------------------------------------------------------------------------------

  /** No step dereferences an instance or a host ID that is not there. */
  lemma NoNilDereference(s: State)
    requires Reachable(s) && s.pass.Active?
    ensures ControlShape(s)
  {
    InvReachable(s);
    ShapeFollows(s);
  }

  lemma ShapeFollows(s: State)
    requires Inv(s) && s.pass.Active?
    ensures ControlShape(s)
  {}

  predicate CreatesSomething(s: State, t: State) {
    || t.cloud.created != s.cloud.created
    || !(t.cloud.secrets <= s.cloud.secrets)
    || (t.cloud.bucketObject && !s.cloud.bucketObject)
    || !(t.cloud.hosts <= s.cloud.hosts)
  }

  /** Instances, secrets, bootstrap objects and hosts are only created under a persisted finalizer. */
  lemma CreatedUnderFinalizer(s: State, e: Event)
    requires Reachable(s) && Enabled(s, e) && CreatesSomething(s, Apply(s, e))
    ensures Finalized(s) && Finalized(Apply(s, e))
  {
    InvReachable(s);
    StoreEffect(s, e);
    LaunchEffect(s, e);
    SecretsEffect(s, e);
    ObjectEffect(s, e);
    if !e.HostAllocated? {
      HostEffect(s, e);
    }
  }

  /** Prefix and count are persisted together, in every state. */
  lemma SecretRecordConsistent(s: State)
    requires Reachable(s) && s.store.Some?
    ensures s.store.value.secretPrefix != "" <==> s.store.value.secretCount != 0
  {
    InvReachable(s);
  }

  /** CreateInstance is called with user data whose prefix and count are the persisted ones. */
  lemma LaunchUsesPersistedSecrets(s: State, e: Event)
    requires Reachable(s) && Enabled(s, e) && e.Launched? && UsesSecrets(s.cfg)
    ensures s.store.Some? && s.pass.Active?
    ensures s.pass.userData == Some((s.store.value.secretPrefix, s.store.value.secretCount))
  {
    InvReachable(s);
  }

  predicate DropsBootstrapData(s: State, t: State) {
    !(s.cloud.secrets <= t.cloud.secrets) || (s.cloud.bucketObject && !t.cloud.bucketObject)
  }

  /** Bootstrap data is deleted only from a machine that is failed, deleted, not operational or a node. */
  lemma BootstrapDataNotDroppedEarly(s: State, e: Event)
    requires Reachable(s) && Enabled(s, e) && DropsBootstrapData(s, Apply(s, e))
    ensures s.pass.Active?
    ensures var m := s.pass.mem;
            || m.failed
            || (m.instanceState.Some? ==> !IsOperational(m.instanceState.value))
            || s.nodeRef
            || (m.deleted && (s.store.Some? ==> s.store.value.deleted))
  {
    InvReachable(s);
    SecretsEffect(s, e);
    ObjectEffect(s, e);
  }

  /** Points a pass reaches only after its call of deleteBootstrapData succeeded. */
  predicate PastDeletion(pc: PC) {
    pc.DropObject? || pc.Finish? || IsDeleting(pc)
  }

  lemma SettledPast(s: State)
    requires Inv(s) && s.pass.Active? && PastDeletion(s.pass.pc)
    ensures SecretsSettled(s)
  {}

  /** A pass past the deletion step of data nobody needs any more holds no secret prefix. */
  lemma NoPrefixPastDeletion(s: State)
    requires Reachable(s) && s.pass.Active? && !s.cfg.pool && PastDeletion(s.pass.pc)
    requires !StillNeeded(s.pass)
    ensures s.pass.mem.secretPrefix == "" && s.pass.mem.secretCount == 0
  {
    InvReachable(s);
    SettledPast(s);
  }

  // ---------------------------------------------------------------------------------------------
  // The finalizer
  // ---------------------------------------------------------------------------------------------

  /**
   The object leaves the API server from under its finalizer only in a pass that found the instance
   absent or terminated, dropped the bootstrap data, and released a recorded dynamic host of a
   terminated instance after persisting that success.
   */
  lemma FinalizerLeaves(s: State, e: Event)
    requires Reachable(s) && Enabled(s, e) && Finalized(s) && !Finalized(Apply(s, e))
    ensures Apply(s, e).store.None?
    ensures s.pass.Active? && s.pass.pc.Close? && s.store.value.deleted
    ensures s.pass.found.Missing? || (s.pass.found.Found? && s.pass.found.state.Terminated?)
    ensures !s.cfg.pool ==> s.pass.mem.secretPrefix == "" && s.pass.mem.secretCount == 0
    ensures s.pass.found.Found? && s.pass.mem.host.Some? && s.cfg.dynamicHost ==>
              s.pass.mem.host.value !in s.cloud.hosts && s.store.value.hostReleased
  {
    InvReachable(s);
    StoreEffect(s, e);
  }

  // ---------------------------------------------------------------------------------------------
  // The provider ID
  // ---------------------------------------------------------------------------------------------

  /** The persisted object names this instance. */
  predicate Recorded(s: State, i: InstanceId) {
    s.store.Some? && s.store.value.providerID == For(i)
  }

  lemma RecordedStep(s: State, e: Event, i: InstanceId)
    requires Inv(s) && Enabled(s, e) && Recorded(s, i)
    ensures !e.Launched?
    ensures Apply(s, e).store.Some? ==> Recorded(Apply(s, e), i)
  {
    StoreEffect(s, e);
    LaunchEffect(s, e);
  }

  lemma StoreNeverReturns(s: State, e: Event)
    requires Enabled(s, e) && s.store.None?
    ensures Apply(s, e).store.None?
  {
    StoreEffect(s, e);
  }

  /** Wherever an instance ID is recorded, the provider ID names the same instance. */
  predicate IdsInv(s: State) {
    && (s.store.Some? ==> IdsAgree(s.store.value))
    && (s.pass.Active? ==> IdsAgree(s.pass.mem) && IdsAgree(s.pass.before))
  }

  lemma IdsPatched(s: State, o: PatchOutcome)
    requires Inv(s) && s.pass.Active? && IdsInv(s)
    ensures var store := PatchedStore(s.store, s.pass.before, s.pass.mem, o);
            store.Some? ==> IdsAgree(store.value)
  {}

  lemma IdsStep(s: State, e: Event)
    requires Inv(s) && IdsInv(s) && Enabled(s, e)
    ensures IdsInv(Apply(s, e))
  {
    StoreEffect(s, e);
    if e.Patched? {
      IdsPatched(s, e.o);
    }
    if s.pass.Active? && !EnvironmentEvent(e) && !e.Crash? {
      FrameCall(s, e);
    }
  }

  lemma {:induction false} IdsRun(s0: State, events: seq<Event>)
    requires Init(s0) && Replay(s0, events).Some?
    ensures IdsInv(Replay(s0, events).value) && Inv(Replay(s0, events).value)
  {
    InvInit(s0);
    InvFrom(s0, events);
    if events != [] {
      var last := |events| - 1;
      InvFrom(s0, events[..last]);
      IdsRun(s0, events[..last]);
      IdsStep(Replay(s0, events[..last]).value, events[last]);
    }
  }

  lemma IdsReachable(s: State)
    requires Reachable(s)
    ensures IdsInv(s) && Inv(s)
  {
    var s0, events :| Init(s0) && Replay(s0, events) == Some(s);
    IdsRun(s0, events);
  }

  /** Once persisted, provider ID and instance ID never change to another instance, and none is launched ever again. */
  lemma {:induction false} RecordedForever(s: State, events: seq<Event>, i: InstanceId)
    requires Reachable(s) && Recorded(s, i) && Replay(s, events).Some?
    ensures IdsInv(Replay(s, events).value)
    ensures Replay(s, events).value.store.Some? ==>
              && Recorded(Replay(s, events).value, i)
              && (Replay(s, events).value.store.value.instanceID.Some? ==> Replay(s, events).value.store.value.instanceID.value == i)
    ensures forall k | 0 <= k < |events| :: !events[k].Launched?
  {
    IdsReachable(s);
    if events != [] {
      var last := |events| - 1;
      var u := Replay(s, events[..last]).value;
      InvReachable(s);
      InvFrom(s, events[..last]);
      RecordedForever(s, events[..last], i);
      IdsStep(u, events[last]);
      if u.store.None? {
        StoreNeverReturns(u, events[last]);
        LaunchEffect(u, events[last]);
      } else {
        RecordedStep(u, events[last], i);
      }
      assert events == events[..last] + [events[last]];
    }
  }

  // ---------------------------------------------------------------------------------------------
  // At most one instance, and none left behind
  // ---------------------------------------------------------------------------------------------

  /**
   The tag lookup sees pending and running instances only, so it is accurate as long as nobody
   outside the controller moves an instance out of these states before its ID is persisted.
   */
  predicate Undisturbed(s: State, e: Event) {
    e.InstanceMoves? && e.moved in s.cloud.created ==>
      IsRunning(e.to) || Recorded(s, e.moved) || Dead(s, e.moved)
  }

  predicate UndisturbedRun(s0: State, events: seq<Event>) {
    events == [] ||
    (var last := |events| - 1;
     && UndisturbedRun(s0, events[..last])
     && (Replay(s0, events[..last]).Some? ==> Undisturbed(Replay(s0, events[..last]).value, events[last])))
  }

  /** The instance is gone from EC2 or on its way out. */
  predicate Dead(s: State, i: InstanceId) {
    i !in s.cloud.instances || IsDoomed(s.cloud.instances[i])
  }

  predicate Visible(s: State, i: InstanceId) {
    i in s.cloud.instances && IsRunning(s.cloud.instances[i])
  }

  /** No pass of reconcileNormal is under way and none will start. */
  predicate NormalIsOver(s: State) {
    && s.store.Some? && s.store.value.deleted
    && (s.pass.Active? ==> s.pass.mem.deleted)
  }

  predicate AtMostOne(s: State) {
    forall i, j | i in s.cloud.created && j in s.cloud.created :: i == j
  }

  predicate NoneLeft(s: State) {
    forall i | i in s.cloud.created :: Dead(s, i)
  }

  /** Every created instance is recorded, or the tag lookup still finds it, or it is dying after deletion. */
  predicate Located(s: State) {
    forall i | i in s.cloud.created :: Recorded(s, i) || Visible(s, i) || (Dead(s, i) && NormalIsOver(s))
  }

  predicate SafePass(s: State)
    requires s.pass.Active?
  {
    var p := s.pass;
    && (AboutToCreate(p.pc) ==> s.cloud.created == {})
    && (p.pc.PatchFinalizer? && p.found.Missing? ==> s.cloud.created == {})
    && (p.found.Found? && IsDoomed(p.found.state) ==> Dead(s, p.found.id))
    && (p.before.finalizer && !p.mem.finalizer ==> NoneLeft(s))
    && (s.store.None? && !p.mem.deleted ==> s.cloud.created == {})
  }

  predicate Safe(s: State) {
    && AtMostOne(s)
    && (if s.store.None? then NoneLeft(s) else Located(s))
    && (s.pass.Active? ==> SafePass(s))
  }

  lemma SafeEnvironment(s: State, e: Event)
    requires Inv(s) && Safe(s) && EnvironmentEvent(e) && EnvironmentEnabled(s, e) && Undisturbed(s, e)
    ensures Safe(ApplyEnvironment(s, e))
  {}

  lemma SafeBegin(s: State, dataRef: bool)
    requires Inv(s) && Safe(s) && s.pass.Idle? && s.store.Some?
    ensures Safe(ApplyBegin(s, dataRef))
  {}

  lemma SafeFindNothing(s: State, e: Event)
    requires Inv(s) && Safe(s) && s.pass.Active? && s.pass.pc.Find? && CallEnabled(s, e)
    requires e.LookupFailed? || e.result.Missing?
    ensures Safe(StepLookup(s, e))
  {}

  lemma SafeFindSomething(s: State, e: Event)
    requires Inv(s) && Safe(s) && s.pass.Active? && s.pass.pc.Find? && CallEnabled(s, e)
    requires e.LookupDone? && e.result.Found?
    ensures Safe(StepLookup(s, e))
  {}

  lemma SafeFind(s: State, e: Event)
    requires Inv(s) && Safe(s) && s.pass.Active? && s.pass.pc.Find? && CallEnabled(s, e)
    ensures Safe(ApplyCall(s, e))
  {
    if e.LookupFailed? || e.result.Missing? {
      SafeFindNothing(s, e);
    } else {
      SafeFindSomething(s, e);
    }
  }

  lemma SafeDeletedMissing(s: State, e: Event)
    requires Inv(s) && Safe(s) && s.pass.Active? && s.pass.pc.FindDeleted? && CallEnabled(s, e)
    requires e.LookupDone? && e.result.Missing?
    ensures Safe(StepDelete(s, e))
  {}

  lemma SafeDeletedFound(s: State, e: Event)
    requires Inv(s) && Safe(s) && s.pass.Active? && s.pass.pc.FindDeleted? && CallEnabled(s, e)
    requires e.LookupFailed? || e.result.Found?
    ensures Safe(StepDelete(s, e))
  {}

  lemma SafeFindDeleted(s: State, e: Event)
    requires Inv(s) && Safe(s) && s.pass.Active? && s.pass.pc.FindDeleted? && CallEnabled(s, e)
    ensures Safe(ApplyCall(s, e))
  {
    if e.LookupDone? && e.result.Missing? {
      SafeDeletedMissing(s, e);
    } else {
      SafeDeletedFound(s, e);
    }
  }

  lemma SafeLaunch(s: State, e: Event)
    requires Inv(s) && Safe(s) && s.pass.Active? && s.pass.pc.Launch? && CallEnabled(s, e)
    ensures Safe(ApplyCall(s, e))
  {}

  lemma SafeTerminate(s: State, e: Event)
    requires Inv(s) && Safe(s) && s.pass.Active? && s.pass.pc.Terminate? && CallEnabled(s, e)
    ensures Safe(ApplyCall(s, e))
  {}

  lemma SafeDetach(s: State, e: Event)
    requires Inv(s) && Safe(s) && s.pass.Active? && s.pass.pc.Detach? && CallEnabled(s, e)
    ensures Safe(ApplyCall(s, e))
  {}

  /** A patch keeps every created instance located, and only removes the object once none is left. */
  lemma SafeStore(s: State, o: PatchOutcome)
    requires Inv(s) && Safe(s) && s.pass.Active? && PatchPossible(s.store, o)
    ensures var t := s.(store := PatchedStore(s.store, s.pass.before, s.pass.mem, o));
            if t.store.None? then NoneLeft(t) else Located(t)
  {}

  lemma SafePatch(s: State, e: Event)
    requires Inv(s) && Safe(s) && s.pass.Active? && IsPatch(s.pass.pc) && CallEnabled(s, e) && e.Patched?
    ensures Safe(ApplyCall(s, e))
  {
    FrameCall(s, e);
    SafeStore(s, e.o);
    if s.pass.pc.PatchReleased? {
      ReleasedSafely(s);
    }
    SafePatched(s, e, ApplyCall(s, e));
  }

  /** The terminated instance whose host is released is the only one. */
  lemma ReleasedSafely(s: State)
    requires Inv(s) && Safe(s) && s.pass.Active? && s.pass.pc.PatchReleased?
    ensures NoneLeft(s)
  {}

  lemma SafePatched(s: State, e: Event, t: State)
    requires Inv(s) && Safe(s) && s.pass.Active? && IsPatch(s.pass.pc) && e.Patched? && Frame(s, e, t)
    requires if t.store.None? then NoneLeft(t) else Located(t)
    requires s.pass.pc.PatchReleased? ==> NoneLeft(s)
    ensures Safe(t)
  {}

  lemma SafeClose(s: State, e: Event)
    requires Inv(s) && Safe(s) && s.pass.Active? && s.pass.pc.Close? && CallEnabled(s, e)
    ensures Safe(ApplyCall(s, e))
  {
    SafeStore(s, e.o);
  }

  predicate IsQuiet(pc: PC, e: Event) {
    && !(IsPatch(pc) && e.Patched?) && !pc.Close? && !pc.Find? && !pc.FindDeleted? && !pc.Launch?
    && !pc.Terminate? && !pc.Detach?
  }

  /** Steps that touch neither the store nor the instances. */
  predicate QuietStep(s: State, t: State)
    requires s.pass.Active?
  {
    && t.store == s.store && t.cfg == s.cfg && t.pass.Active?
    && t.cloud.instances == s.cloud.instances && t.cloud.created == s.cloud.created
    && t.pass.found == s.pass.found && t.pass.before == s.pass.before
    && t.pass.mem.finalizer == s.pass.mem.finalizer && t.pass.mem.deleted == s.pass.mem.deleted
    && (AboutToCreate(t.pass.pc) ==> AboutToCreate(s.pass.pc)) && !t.pass.pc.PatchFinalizer?
  }

  lemma QuietCall(s: State, e: Event)
    requires ControlShape(s) && CallEnabled(s, e) && IsQuiet(s.pass.pc, e)
    ensures QuietStep(s, ApplyCall(s, e))
  {
    FrameCall(s, e);
    QuietOutcome(s, e);
  }

  lemma QuietOutcome(s: State, e: Event)
    requires s.pass.Active? && CallEnabled(s, e) && IsQuiet(s.pass.pc, e)
    ensures !e.Patched? && !e.LookupDone? && !e.Launched? && !e.TerminateCalled?
    ensures s.pass.pc.PatchReleased? ==> e.Patched?
    ensures s.pass.pc.PatchFinalizer? ==> e.Patched?
  {}

  lemma SafeQuiet(s: State, e: Event)
    requires Safe(s) && ControlShape(s) && CallEnabled(s, e) && IsQuiet(s.pass.pc, e)
    ensures Safe(ApplyCall(s, e))
  {
    QuietCall(s, e);
  }

  lemma SafeStep(s: State, e: Event)
    requires Inv(s) && Safe(s) && Enabled(s, e) && Undisturbed(s, e)
    ensures Safe(Apply(s, e))
  {
    if EnvironmentEvent(e) {
      SafeEnvironment(s, e);
    } else if s.pass.Idle? {
      SafeBegin(s, e.dataRef);
    } else if !e.Crash? {
      SafeCall(s, e);
    }
  }

  lemma SafeCall(s: State, e: Event)
    requires Inv(s) && Safe(s) && ControlShape(s) && CallEnabled(s, e)
    ensures Safe(ApplyCall(s, e))
  {
    var pc := s.pass.pc;
    if pc.Find? {
      SafeFind(s, e);
    } else if pc.FindDeleted? {
      SafeFindDeleted(s, e);
    } else if pc.Launch? {
      SafeLaunch(s, e);
    } else if pc.Terminate? {
      SafeTerminate(s, e);
    } else if pc.Detach? {
      SafeDetach(s, e);
    } else if pc.Close? {
      SafeClose(s, e);
    } else if IsPatch(pc) && e.Patched? {
      SafePatch(s, e);
    } else {
      SafeQuiet(s, e);
    }
  }

  lemma SafeInit(s: State)
    requires Init(s)
    ensures Safe(s)
  {}

  lemma {:induction false} SafeRun(s0: State, events: seq<Event>)
    requires Init(s0) && Replay(s0, events).Some? && UndisturbedRun(s0, events)
    ensures Safe(Replay(s0, events).value) && Inv(Replay(s0, events).value)
  {
    InvInit(s0);
    InvFrom(s0, events);
    if events == [] {
      SafeInit(s0);
    } else {
      var last := |events| - 1;
      InvFrom(s0, events[..last]);
      SafeRun(s0, events[..last]);
      SafeStep(Replay(s0, events[..last]).value, events[last]);
    }
  }

  lemma SingletonSize<T>(s: set<T>)
    requires forall x, y | x in s && y in s :: x == y
    ensures |s| <= 1
  {
    if s != {} {
      var x :| x in s;
      assert s == {x};
    }
  }

  /** At most one instance is ever launched for a machine, whatever fails and wherever the controller crashes. */
  lemma AtMostOneInstance(s0: State, events: seq<Event>)
    requires Init(s0) && Replay(s0, events).Some? && UndisturbedRun(s0, events)
    ensures |Replay(s0, events).value.cloud.created| <= 1
  {
    SafeRun(s0, events);
    SingletonSize(Replay(s0, events).value.cloud.created);
  }

  /** Once the object is gone, every instance launched for it is gone, terminated or shutting down. */
  lemma NoOrphanInstance(s0: State, events: seq<Event>)
    requires Init(s0) && Replay(s0, events).Some? && UndisturbedRun(s0, events)
    requires Replay(s0, events).value.store.None?
    ensures NoneLeft(Replay(s0, events).value)
  {
    SafeRun(s0, events);
  }
}
