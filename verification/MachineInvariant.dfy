/** What every run of the machine controller keeps, whatever fails and whatever the environment does. */
module MachineInvariant {
  import opened Basics
  import opened MachineProtocol

  // ---------------------------------------------------------------------------------------------
  // The invariant
  // ---------------------------------------------------------------------------------------------

  /** The secret prefix is set exactly when the secret count is. */
  predicate PairOk(m: AWSMachine) {
    m.secretPrefix != "" <==> m.secretCount != 0
  }

  predicate SameSecrets(a: AWSMachine, b: AWSMachine) {
    a.secretPrefix == b.secretPrefix && a.secretCount == b.secretCount
  }

  predicate Finalized(s: State) {
    s.store.Some? && s.store.value.finalizer
  }

  /** A provider ID this controller may have written. */
  predicate OwnId(s: State, pid: ProviderID) {
    s.cfg.pool || pid.Empty? || (pid.For? && pid.id in s.cloud.created)
  }

  predicate ObjectOk(s: State, m: AWSMachine) {
    && PairOk(m)
    && (m.deleted ==> m.finalizer)
    && (m.secretPrefix != "" ==> UsesSecrets(s.cfg))
    && OwnId(s, m.providerID)
  }

  predicate StoreInv(s: State) {
    && (s.store.Some? ==> ObjectOk(s, s.store.value))
    && (!s.cfg.pool ==> s.cloud.instances.Keys <= s.cloud.created)
    && (s.cfg.pool ==> s.cloud.created == {} && s.cloud.secrets == {} && !s.cloud.bucketObject)
    && (!UsesSecrets(s.cfg) ==> s.cloud.secrets == {})
    && (s.store.Some? && !s.store.value.finalizer ==>
          s.cloud.created == {} && s.cloud.secrets == {} && !s.cloud.bucketObject && s.cloud.hosts == {})
  }

  /** The persisted object against the copy the pass started from. */
  predicate StoreFollows(s: State)
    requires s.pass.Active?
  {
    var p := s.pass;
    && (p.before.finalizer ==> Finalized(s))
    && (s.store.Some? ==>
          var st := s.store.value;
          && (p.before.deleted ==> st.deleted)
          && (st.finalizer ==> p.before.finalizer || p.mem.finalizer)
          && (st.providerID == p.before.providerID || st.providerID == p.mem.providerID)
          && (p.before.hostReleased ==> st.hostReleased)
          && (p.mem.secretPrefix == p.before.secretPrefix && p.before.secretPrefix != "" ==>
                && st.secretPrefix == p.before.secretPrefix
                && (p.mem.secretCount == p.before.secretCount ==> st.secretCount == p.before.secretCount)))
  }

  /** The in-memory object against the copy the pass started from. */
  predicate MemFollows(s: State)
    requires s.pass.Active?
  {
    var p := s.pass;
    && ObjectOk(s, p.before) && PairOk(p.mem) && OwnId(s, p.mem.providerID)
    && p.mem.deleted == p.before.deleted
    && (p.nodeRef ==> s.nodeRef)
    && (p.mem.deleted ==> p.mem.providerID == p.before.providerID)
    && (p.before.finalizer && !p.mem.finalizer ==> p.pc.Close?)
    && (!p.before.providerID.Empty? ==> p.mem.providerID == p.before.providerID)
    && (p.before.hostReleased ==> p.mem.hostReleased)
    && (p.mem.secretPrefix != "" ==> UsesSecrets(s.cfg))
    && (p.before.secretPrefix != "" ==> p.mem.secretPrefix == "" || p.mem.secretPrefix == p.before.secretPrefix)
  }

  predicate LookupInv(s: State)
    requires s.pass.Active?
  {
    var p := s.pass;
    p.found.Found? ==>
      && OwnId(s, For(p.found.id))
      && (p.before.providerID.Empty? || p.before.providerID == For(p.found.id))
      && (p.mem.providerID.Empty? || p.mem.providerID == For(p.found.id))
  }

  /** Before the finalizer is known to be persisted. */
  predicate Preparing(s: State)
    requires s.pass.Active?
  {
    && !s.pass.mem.deleted
    && (s.store.Some? ==> SameSecrets(s.store.value, s.pass.before))
  }

  /** reconcileNormal past the finalizer patch. */
  predicate Committed(s: State)
    requires s.pass.Active?
  {
    !s.pass.mem.deleted && Finalized(s) && s.pass.mem.finalizer
  }

  /** Inside createInstance. */
  predicate Creating(s: State)
    requires s.pass.Active?
  {
    var p := s.pass;
    && Committed(s)
    && p.found.Missing? && !s.cfg.pool
    && p.mem.providerID.Empty? && p.before.providerID.Empty?
  }

  /** The user data refers to the persisted secrets. */
  predicate UserDataPersisted(s: State)
    requires s.pass.Active? && s.store.Some?
  {
    UsesSecrets(s.cfg) ==>
      && SameSecrets(s.store.value, s.pass.mem)
      && s.pass.userData == Some((s.store.value.secretPrefix, s.store.value.secretCount))
  }

  predicate CallerInv(s: State, caller: Caller)
    requires s.pass.Active?
  {
    match caller
    case FromFailed => !s.pass.mem.deleted
    case FromNormal =>
      Committed(s) && s.pass.found.Found? && s.pass.mem.instanceState == Some(s.pass.found.state)
    case FromDelete => s.pass.mem.deleted
  }

  /** reconcileDelete with an instance in hand. */
  predicate DeletingFound(s: State)
    requires s.pass.Active?
  {
    s.pass.mem.deleted && SecretsSettled(s) && s.pass.found.Found?
  }

  predicate ReleasingHost(s: State)
    requires s.pass.Active?
  {
    DeletingFound(s) && s.pass.found.state.Terminated? && s.cfg.dynamicHost && s.pass.mem.host.Some?
  }

  /** What holds at each program point. */
  predicate PointInv(s: State)
    requires s.pass.Active?
  {
    var p := s.pass;
    match p.pc
    case Gate => Preparing(s) && p.mem == p.before
    case Find => Preparing(s) && p.mem == p.before
    case PatchFinalizer =>
      && Preparing(s) && p.mem == p.before.(finalizer := true)
      && (p.found.Missing? || p.found.Found?)
      && (p.found.Missing? ==> p.mem.providerID.Empty? && !s.cfg.pool)
    case PatchStarted => Creating(s) && SameSecrets(s.store.value, p.before) && SameSecrets(p.mem, p.before)
    case RawData => Creating(s) && SameSecrets(s.store.value, p.before) && SameSecrets(p.mem, p.before)
    case CreateSecrets =>
      Creating(s) && UsesSecrets(s.cfg) && SameSecrets(s.store.value, p.before) && SameSecrets(p.mem, p.before)
    case PatchSecrets => Creating(s) && UsesSecrets(s.cfg) && SameSecrets(s.store.value, p.before)
    case UserData => Creating(s) && UsesSecrets(s.cfg) && SameSecrets(s.store.value, p.mem)
    case CreateObject => Creating(s) && UsesObjectStore(s.cfg)
    case AllocateHost => Creating(s) && UserDataPersisted(s)
    case Launch => Creating(s) && UserDataPersisted(s)
    case Settle => Committed(s) && p.found.Found?
    case Finish => Committed(s) && p.found.Found? && SecretsSettled(s)
    case DropRaw(k) => CallerInv(s, k)
    case DropSecrets(k) => CallerInv(s, k)
    case DropObject(k) => CallerInv(s, k) && SecretsSettled(s)
    case FindDeleted => p.mem.deleted && SecretsSettled(s)
    case Detach => DeletingFound(s)
    case ReleaseHost => ReleasingHost(s)
    case PatchReleased =>
      ReleasingHost(s) && p.mem.hostReleased && p.mem.host.value !in s.cloud.hosts
    case PatchDeleting => DeletingFound(s)
    case Terminate => DeletingFound(s)
    case PatchDetaching => DeletingFound(s)
    case Cleanup => DeletingFound(s)
    case Close => true
  }

  /** Past the deletion step: no prefix is left, or the data is still needed. */
  predicate SecretsSettled(s: State)
    requires s.pass.Active?
  {
    !s.cfg.pool ==> s.pass.mem.secretPrefix == "" || StillNeeded(s.pass)
  }

  /** The pass has dropped the finalizer in memory and has the evidence reconcileDelete needs. */
  predicate ReleaseJustified(s: State)
    requires s.pass.Active?
  {
    var p := s.pass;
    && p.mem.deleted
    && (!s.cfg.pool ==> p.mem.secretPrefix == "")
    && (p.found.Missing? || (p.found.Found? && p.found.state.Terminated?))
    && (p.found.Found? && p.mem.host.Some? && s.cfg.dynamicHost ==>
          && p.mem.host.value !in s.cloud.hosts
          && (s.store.Some? ==> s.store.value.hostReleased))
  }

  /** The part of the invariant that does not depend on the program point. */
  predicate FrameInv(s: State)
    requires s.pass.Active?
  {
    StoreFollows(s) && MemFollows(s) && LookupInv(s)
  }

  predicate PassInv(s: State)
    requires s.pass.Active?
  {
    && FrameInv(s) && PointInv(s)
    && (s.pass.before.finalizer && !s.pass.mem.finalizer ==> ReleaseJustified(s))
  }

  predicate Inv(s: State) {
    StoreInv(s) && (s.pass.Active? ==> PassInv(s))
  }

  // ---------------------------------------------------------------------------------------------
  // Preservation
  // ---------------------------------------------------------------------------------------------

  lemma InvInit(s: State)
    requires Init(s)
    ensures Inv(s)
  {}

  /** The program-point part does not look at instances, and at the store only for finalizer and secrets. */
  lemma PointStable(s: State, t: State)
    requires s.pass.Active? && t.pass == s.pass && t.cfg == s.cfg && t.cloud.hosts == s.cloud.hosts
    requires s.store.Some? && t.store.Some? && SameSecrets(s.store.value, t.store.value)
    requires s.store.value.finalizer == t.store.value.finalizer
    requires PointInv(s)
    ensures PointInv(t)
  {
    assert SecretsSettled(t) == SecretsSettled(s) && Committed(t) == Committed(s);
    assert Preparing(t) == Preparing(s) && Creating(t) == Creating(s);
    assert DeletingFound(t) == DeletingFound(s) && ReleasingHost(t) == ReleasingHost(s);
    assert forall k :: CallerInv(t, k) == CallerInv(s, k);
  }

  /** Without a persisted finalizer the pass is still preparing, or is on its way out. */
  lemma PointGone(s: State, t: State)
    requires s.pass.Active? && t == s.(store := t.store) && t.store.None?
    requires !Finalized(s)
    requires PointInv(s)
    ensures PointInv(t)
  {
    assert SecretsSettled(t) == SecretsSettled(s) && !Committed(s);
    assert DeletingFound(t) == DeletingFound(s) && ReleasingHost(t) == ReleasingHost(s);
    assert forall k :: CallerInv(t, k) == CallerInv(s, k);
  }

  lemma InvUserDelete(s: State)
    requires Inv(s) && s.store.Some?
    ensures Inv(ApplyEnvironment(s, UserDelete))
  {
    var t := ApplyEnvironment(s, UserDelete);
    if s.pass.Active? {
      if t.store.Some? {
        PointStable(s, t);
      } else {
        PointGone(s, t);
      }
    }
  }

  lemma PointGoneStable(s: State, t: State)
    requires s.pass.Active? && t.pass == s.pass && t.cfg == s.cfg && t.cloud.hosts == s.cloud.hosts
    requires s.store.None? && t.store.None?
    requires PointInv(s)
    ensures PointInv(t)
  {
    assert SecretsSettled(t) == SecretsSettled(s) && !Committed(s);
    assert DeletingFound(t) == DeletingFound(s) && ReleasingHost(t) == ReleasingHost(s);
    assert forall k :: CallerInv(t, k) == CallerInv(s, k);
  }

  lemma InvCloudMoves(s: State, e: Event)
    requires Inv(s) && EnvironmentEvent(e) && EnvironmentEnabled(s, e) && !e.UserDelete?
    ensures Inv(ApplyEnvironment(s, e))
  {
    var t := ApplyEnvironment(s, e);
    if s.pass.Active? {
      if s.store.Some? {
        PointStable(s, t);
      } else {
        PointGoneStable(s, t);
      }
    }
  }

  lemma InvBegin(s: State, dataRef: bool)
    requires Inv(s) && s.pass.Idle? && s.store.Some?
    ensures Inv(ApplyBegin(s, dataRef))
  {}

  /** A step that only moves the program point. */
  lemma InvMove(s: State, pc: PC)
    requires StoreInv(s) && s.pass.Active? && FrameInv(s)
    requires s.pass.before.finalizer ==> s.pass.mem.finalizer
    requires PointInv(s.(pass := At(s.pass, pc)))
    ensures Inv(s.(pass := At(s.pass, pc)))
  {}

  /** A step that only ends the pass. */
  lemma InvAbort(s: State)
    requires Inv(s) && s.pass.Active? && (s.pass.before.finalizer ==> s.pass.mem.finalizer)
    ensures Inv(s.(pass := At(s.pass, Close)))
  {}

  /** A patch that does not release the finalizer, and then a move. */
  lemma InvPatchMove(s: State, o: PatchOutcome, pc: PC)
    requires Inv(s) && s.pass.Active? && PatchPossible(s.store, o)
    requires s.pass.before.finalizer ==> s.pass.mem.finalizer
    requires !s.pass.before.finalizer && s.pass.mem.finalizer ==> !s.pass.mem.deleted
    requires PointInv(s.(store := PatchedStore(s.store, s.pass.before, s.pass.mem, o), pass := At(s.pass, pc)))
    ensures Inv(s.(store := PatchedStore(s.store, s.pass.before, s.pass.mem, o), pass := At(s.pass, pc)))
  {
    PatchFrame(s, o);
    InvMove(s.(store := PatchedStore(s.store, s.pass.before, s.pass.mem, o)), pc);
  }

  /** A patch that does not release the finalizer, and the end of the pass. */
  lemma InvPatchAbort(s: State, o: PatchOutcome)
    requires Inv(s) && s.pass.Active? && PatchPossible(s.store, o)
    requires s.pass.before.finalizer ==> s.pass.mem.finalizer
    requires !s.pass.before.finalizer && s.pass.mem.finalizer ==> !s.pass.mem.deleted
    ensures Inv(s.(store := PatchedStore(s.store, s.pass.before, s.pass.mem, o), pass := At(s.pass, Close)))
  {
    InvPatchMove(s, o, Close);
  }

  /** A patch that does not release the finalizer. */
  lemma PatchFrame(s: State, o: PatchOutcome)
    requires Inv(s) && s.pass.Active? && PatchPossible(s.store, o)
    requires s.pass.before.finalizer ==> s.pass.mem.finalizer
    requires !s.pass.before.finalizer && s.pass.mem.finalizer ==> !s.pass.mem.deleted
    ensures var t := s.(store := PatchedStore(s.store, s.pass.before, s.pass.mem, o));
            StoreInv(t) && FrameInv(t) && (s.store.Some? ==> t.store.Some?)
  {}

  function WithoutSecrets(s: State, gone: set<nat>): State
    requires s.pass.Active?
  {
    s.(cloud := s.cloud.(secrets :=
         s.cloud.secrets - Entries(s.pass.mem.secretPrefix, gone * Below(s.pass.mem.secretCount))))
  }

  function Forgotten(p: Pass): Pass
    requires p.Active?
  {
    p.(mem := p.mem.(secretPrefix := "", secretCount := 0))
  }

  lemma DropFrame(s: State, gone: set<nat>)
    requires Inv(s) && s.pass.Active?
    ensures StoreInv(WithoutSecrets(s, gone)) && FrameInv(WithoutSecrets(s, gone))
  {}

  lemma ForgetFrame(s: State)
    requires StoreInv(s) && s.pass.Active? && FrameInv(s)
    ensures StoreInv(s.(pass := Forgotten(s.pass))) && FrameInv(s.(pass := Forgotten(s.pass)))
  {}

  lemma InvGate(s: State, e: Event)
    requires Inv(s) && s.pass.Active? && s.pass.pc.Gate? && CallEnabled(s, e)
    ensures Inv(StepLookup(s, e))
  {}

  lemma InvFindMissing(s: State, e: Event)
    requires Inv(s) && s.pass.Active? && s.pass.pc.Find? && CallEnabled(s, e)
    requires e.LookupDone? && e.result.Missing? && !s.pass.mem.providerID.For? && !s.cfg.pool
    ensures Inv(StepLookup(s, e))
  {}

  lemma InvFindFound(s: State, e: Event)
    requires Inv(s) && s.pass.Active? && s.pass.pc.Find? && CallEnabled(s, e)
    requires e.LookupDone? && e.result.Found?
    ensures Inv(StepLookup(s, e))
  {}

  lemma InvFindPool(s: State)
    requires Inv(s) && s.pass.Active? && s.pass.pc.Find?
    ensures Inv(s.(pass := s.pass.(found := Missing, pc := Close)))
  {}

  lemma InvFind(s: State, e: Event)
    requires Inv(s) && s.pass.Active? && s.pass.pc.Find? && CallEnabled(s, e)
    ensures Inv(StepLookup(s, e))
  {
    if e.LookupFailed? || (e.result.Missing? && s.pass.mem.providerID.For?) {
      InvAbort(s);
    } else if e.result.Missing? && s.cfg.pool {
      InvFindPool(s);
    } else if e.result.Missing? {
      InvFindMissing(s, e);
    } else {
      InvFindFound(s, e);
    }
  }

  lemma InvFinalizerRegistered(s: State, e: Event)
    requires Inv(s) && s.pass.Active? && s.pass.pc.PatchFinalizer? && CallEnabled(s, e) && !e.o.err
    ensures Inv(StepLookup(s, e))
  {
    PatchFrame(s, e.o);
    var t := s.(store := PatchedStore(s.store, s.pass.before, s.pass.mem, e.o));
    if s.pass.found.Missing? {
      InvMove(t, PatchStarted);
    } else {
      InvMove(t, Settle);
    }
  }

  lemma InvPatchFinalizer(s: State, e: Event)
    requires Inv(s) && s.pass.Active? && s.pass.pc.PatchFinalizer? && CallEnabled(s, e)
    ensures Inv(StepLookup(s, e))
  {
    if e.o.err {
      InvPatchAbort(s, e.o);
    } else {
      InvFinalizerRegistered(s, e);
    }
  }

  lemma InvPatchStarted(s: State, e: Event)
    requires Inv(s) && s.pass.Active? && s.pass.pc.PatchStarted? && CallEnabled(s, e)
    ensures Inv(StepUserData(s, e))
  {
    if e.Tick? {
      InvMove(s, RawData);
    } else if e.o.err {
      InvPatchAbort(s, e.o);
    } else {
      InvStarted(s, e.o);
    }
  }

  lemma InvStarted(s: State, o: PatchOutcome)
    requires Inv(s) && s.pass.Active? && s.pass.pc.PatchStarted? && PatchPossible(s.store, o)
    ensures Inv(s.(store := PatchedStore(s.store, s.pass.before, s.pass.mem, o), pass := At(s.pass, RawData)))
  {
    StartedPoint(s, o);
    InvPatchMove(s, o, RawData);
  }

  lemma StartedPoint(s: State, o: PatchOutcome)
    requires Inv(s) && s.pass.Active? && s.pass.pc.PatchStarted? && PatchPossible(s.store, o)
    ensures PointInv(s.(store := PatchedStore(s.store, s.pass.before, s.pass.mem, o), pass := At(s.pass, RawData)))
  {}

  lemma InvRawData(s: State, e: Event)
    requires Inv(s) && s.pass.Active? && s.pass.pc.RawData? && CallEnabled(s, e)
    ensures Inv(StepUserData(s, e))
  {
    if !e.ok || s.cfg.bootstrap == Ignition(UnsupportedStorage) {
      InvAbort(s);
    } else if s.cfg.bootstrap.Secrets? {
      InvMove(s, CreateSecrets);
    } else if s.cfg.bootstrap == Ignition(ClusterObjectStore) {
      InvMove(s, CreateObject);
    } else {
      InvRawLaunch(s);
    }
  }

  lemma InvRawLaunch(s: State)
    requires Inv(s) && s.pass.Active? && s.pass.pc.RawData? && !UsesSecrets(s.cfg)
    ensures Inv(s.(pass := AfterUserData(s.cfg, s.pass)))
  {}

  lemma InvCreateSecrets(s: State, e: Event)
    requires Inv(s) && s.pass.Active? && s.pass.pc.CreateSecrets? && CallEnabled(s, e)
    ensures Inv(StepUserData(s, e))
  {}

  lemma InvPatchSecrets(s: State, e: Event)
    requires Inv(s) && s.pass.Active? && s.pass.pc.PatchSecrets? && CallEnabled(s, e)
    ensures Inv(StepUserData(s, e))
  {}

  lemma InvUserData(s: State, e: Event)
    requires Inv(s) && s.pass.Active? && s.pass.pc.UserData? && CallEnabled(s, e)
    ensures Inv(StepUserData(s, e))
  {
    if !e.ok {
      InvAbort(s);
    } else {
      InvDataReady(s);
    }
  }

  lemma InvDataReady(s: State)
    requires Inv(s) && s.pass.Active? && s.pass.pc.UserData?
    ensures Inv(s.(pass := AfterUserData(s.cfg, s.pass.(userData := Some((s.pass.mem.secretPrefix, s.pass.mem.secretCount))))))
  {}

  lemma InvCreateObject(s: State, e: Event)
    requires Inv(s) && s.pass.Active? && s.pass.pc.CreateObject? && CallEnabled(s, e)
    ensures Inv(StepUserData(s, e))
  {}

  lemma InvAllocateHost(s: State, e: Event)
    requires Inv(s) && s.pass.Active? && s.pass.pc.AllocateHost? && CallEnabled(s, e)
    ensures Inv(StepLaunch(s, e))
  {}

  lemma InvLaunchOk(s: State, e: Event)
    requires Inv(s) && s.pass.Active? && s.pass.pc.Launch? && CallEnabled(s, e)
    requires e.Launched? && e.launch.LaunchOk?
    ensures Inv(StepLaunch(s, e))
  {}

  function Launched(s: State, e: Event): State
    requires s.pass.Active? && e.Launched?
  {
    s.(cloud := s.cloud.(instances := s.cloud.instances[e.id := e.state], created := s.cloud.created + {e.id}),
       pass := if e.launch.ErrorUnrecorded? then s.pass
               else s.pass.(mem := s.pass.mem.(providerID := For(e.id), instanceID := Some(e.id))))
  }

  lemma LaunchFrame(s: State, e: Event)
    requires Inv(s) && s.pass.Active? && s.pass.pc.Launch? && CallEnabled(s, e) && e.Launched?
    ensures StoreInv(Launched(s, e)) && FrameInv(Launched(s, e))
  {}

  lemma InvLaunchError(s: State, e: Event)
    requires Inv(s) && s.pass.Active? && s.pass.pc.Launch? && CallEnabled(s, e)
    requires e.Launched? && !e.launch.LaunchOk?
    ensures Inv(StepLaunch(s, e))
  {
    LaunchFrame(s, e);
    InvMove(Launched(s, e), Close);
  }

  lemma InvLaunchFailed(s: State, e: Event)
    requires Inv(s) && s.pass.Active? && (s.pass.pc.Launch? || s.pass.pc.AllocateHost?)
    requires CallEnabled(s, e) && e.LaunchFailed?
    ensures Inv(ApplyCall(s, e))
  {}

  lemma InvLaunch(s: State, e: Event)
    requires Inv(s) && s.pass.Active? && s.pass.pc.Launch? && CallEnabled(s, e)
    ensures Inv(StepLaunch(s, e))
  {
    if e.LaunchFailed? {
      InvLaunchFailed(s, e);
    } else if e.launch.LaunchOk? {
      InvLaunchOk(s, e);
    } else {
      InvLaunchError(s, e);
    }
  }

  lemma InvSettle(s: State, e: Event)
    requires Inv(s) && s.pass.Active? && s.pass.pc.Settle? && CallEnabled(s, e)
    ensures Inv(ApplyCall(s, e))
  {}

  lemma InvFinish(s: State, e: Event)
    requires Inv(s) && s.pass.Active? && s.pass.pc.Finish? && CallEnabled(s, e)
    ensures Inv(ApplyCall(s, e))
  {}

  lemma InvDropRaw(s: State, e: Event)
    requires Inv(s) && s.pass.Active? && s.pass.pc.DropRaw? && CallEnabled(s, e)
    ensures Inv(StepDrop(s, e))
  {
    InvMove(s, ApplyCall(s, e).pass.pc);
  }

  lemma InvSecretsForgotten(s: State, e: Event)
    requires Inv(s) && s.pass.Active? && s.pass.pc.DropSecrets? && CallEnabled(s, e)
    requires DecideSecrets(s.cfg, s.pass).DeleteSecret? && e.ok
    ensures Inv(StepDrop(s, e))
  {
    DropFrame(s, e.gone);
  }

  lemma InvDropSecretsDelete(s: State, e: Event)
    requires Inv(s) && s.pass.Active? && s.pass.pc.DropSecrets? && CallEnabled(s, e)
    requires DecideSecrets(s.cfg, s.pass).DeleteSecret?
    ensures Inv(StepDrop(s, e))
  {
    DropFrame(s, e.gone);
    if e.ok {
      InvSecretsForgotten(s, e);
    } else {
      InvMove(WithoutSecrets(s, e.gone), Close);
    }
  }

  lemma InvDropSecrets(s: State, e: Event)
    requires Inv(s) && s.pass.Active? && s.pass.pc.DropSecrets? && CallEnabled(s, e)
    ensures Inv(StepDrop(s, e))
  {
    match DecideSecrets(s.cfg, s.pass) {
      case BrokenRecord => InvMove(s, Close);
      case NoSecret => InvMove(s, DropObject(s.pass.pc.caller));
      case KeepSecret => InvMove(s, DropObject(s.pass.pc.caller));
      case DeleteSecret => InvDropSecretsDelete(s, e);
    }
  }

  lemma InvReturnNormal(s: State)
    requires StoreInv(s) && s.pass.Active? && FrameInv(s)
    requires s.pass.before.finalizer ==> s.pass.mem.finalizer
    requires CallerInv(s, FromNormal) && SecretsSettled(s)
    ensures Inv(s.(pass := Return(s.pass, FromNormal)))
  {}

  lemma InvReturn(s: State, k: Caller)
    requires StoreInv(s) && s.pass.Active? && FrameInv(s)
    requires s.pass.before.finalizer ==> s.pass.mem.finalizer
    requires CallerInv(s, k) && SecretsSettled(s)
    ensures Inv(s.(pass := Return(s.pass, k)))
  {
    match k {
      case FromFailed => InvMove(s, Close);
      case FromDelete => InvMove(s, FindDeleted);
      case FromNormal => InvReturnNormal(s);
    }
  }

  lemma InvDropObject(s: State, e: Event)
    requires Inv(s) && s.pass.Active? && s.pass.pc.DropObject? && CallEnabled(s, e)
    ensures Inv(StepDrop(s, e))
  {
    var k := s.pass.pc.caller;
    var t := if e.Tick? then s
             else s.(cloud := s.cloud.(bucketObject := s.cloud.bucketObject && !(e.removed && UsesObjectStore(s.cfg))));
    if !e.Tick? && !e.ok {
      InvMove(t, Close);
    } else {
      InvReturn(t, k);
    }
  }

  lemma InvFindDeletedMissing(s: State, e: Event)
    requires Inv(s) && s.pass.Active? && s.pass.pc.FindDeleted? && CallEnabled(s, e)
    requires e.LookupFailed? || e.result.Missing?
    ensures Inv(StepDelete(s, e))
  {}

  lemma InvFindDeletedFound(s: State, e: Event)
    requires Inv(s) && s.pass.Active? && s.pass.pc.FindDeleted? && CallEnabled(s, e)
    requires e.LookupDone? && e.result.Found?
    ensures Inv(StepDelete(s, e))
  {}

  lemma InvFindDeleted(s: State, e: Event)
    requires Inv(s) && s.pass.Active? && s.pass.pc.FindDeleted? && CallEnabled(s, e)
    ensures Inv(StepDelete(s, e))
  {
    if e.LookupFailed? || e.result.Missing? {
      InvFindDeletedMissing(s, e);
    } else {
      InvFindDeletedFound(s, e);
    }
  }

  lemma InvDetachTerminated(s: State, e: Event)
    requires Inv(s) && s.pass.Active? && s.pass.pc.Detach? && CallEnabled(s, e) && e.ok
    requires s.pass.found.state.Terminated?
    ensures Inv(StepDelete(s, e))
  {
    if s.pass.mem.host.Some? && s.cfg.dynamicHost {
      InvMove(s, ReleaseHost);
    } else {
      InvReleased(s);
    }
  }

  lemma InvReleased(s: State)
    requires Inv(s) && s.pass.Active? && s.pass.pc.Detach? && s.pass.found.state.Terminated?
    requires !(s.pass.mem.host.Some? && s.cfg.dynamicHost)
    ensures Inv(s.(pass := s.pass.(mem := s.pass.mem.(finalizer := false), pc := Close)))
  {}

  lemma InvDetach(s: State, e: Event)
    requires Inv(s) && s.pass.Active? && s.pass.pc.Detach? && CallEnabled(s, e)
    ensures Inv(StepDelete(s, e))
  {
    if !e.ok || s.pass.found.state.ShuttingDown? {
      InvAbort(s);
    } else if s.pass.found.state.Terminated? {
      InvDetachTerminated(s, e);
    } else {
      InvMove(s, PatchDeleting);
    }
  }

  lemma InvReleaseHost(s: State, e: Event)
    requires Inv(s) && s.pass.Active? && s.pass.pc.ReleaseHost? && CallEnabled(s, e)
    ensures Inv(StepDelete(s, e))
  {}

  lemma InvPatchReleased(s: State, e: Event)
    requires Inv(s) && s.pass.Active? && s.pass.pc.PatchReleased? && CallEnabled(s, e)
    ensures Inv(StepDelete(s, e))
  {}

  lemma InvPatchDeleting(s: State, e: Event)
    requires Inv(s) && s.pass.Active? && s.pass.pc.PatchDeleting? && CallEnabled(s, e)
    ensures Inv(StepDelete(s, e))
  {
    if e.o.err {
      InvPatchAbort(s, e.o);
    } else {
      InvPatchMove(s, e.o, Terminate);
    }
  }

  lemma InvTerminate(s: State, e: Event)
    requires Inv(s) && s.pass.Active? && s.pass.pc.Terminate? && CallEnabled(s, e)
    ensures Inv(StepDelete(s, e))
  {}

  lemma InvPatchDetaching(s: State, e: Event)
    requires Inv(s) && s.pass.Active? && s.pass.pc.PatchDetaching? && CallEnabled(s, e)
    ensures Inv(StepDelete(s, e))
  {
    if e.Tick? {
      InvMove(s, Cleanup);
    } else if e.Call? {
      InvAbort(s);
    } else if e.o.err {
      InvPatchAbort(s, e.o);
    } else {
      InvPatchMove(s, e.o, Cleanup);
    }
  }

  lemma InvClose(s: State, e: Event)
    requires Inv(s) && s.pass.Active? && s.pass.pc.Close? && CallEnabled(s, e)
    ensures Inv(ApplyCall(s, e))
  {}

  /** reconcileNormal up to the launch. */
  predicate IsLaunching(pc: PC) {
    || pc.Gate? || pc.Find? || pc.PatchFinalizer? || pc.PatchStarted? || pc.RawData? || pc.CreateSecrets?
    || pc.PatchSecrets? || pc.UserData? || pc.CreateObject? || pc.AllocateHost? || pc.Launch?
  }

  lemma InvLookups(s: State, e: Event)
    requires Inv(s) && s.pass.Active? && IsLookup(s.pass.pc) && CallEnabled(s, e)
    ensures Inv(StepLookup(s, e))
  {
    match s.pass.pc {
      case Gate => InvGate(s, e);
      case Find => InvFind(s, e);
      case PatchFinalizer => InvPatchFinalizer(s, e);
    }
  }

  lemma InvData(s: State, e: Event)
    requires Inv(s) && s.pass.Active? && IsUserData(s.pass.pc) && CallEnabled(s, e)
    ensures Inv(StepUserData(s, e))
  {
    match s.pass.pc {
      case PatchStarted => InvPatchStarted(s, e);
      case RawData => InvRawData(s, e);
      case CreateSecrets => InvCreateSecrets(s, e);
      case PatchSecrets => InvPatchSecrets(s, e);
      case UserData => InvUserData(s, e);
      case CreateObject => InvCreateObject(s, e);
    }
  }

  lemma InvLaunching(s: State, e: Event)
    requires Inv(s) && s.pass.Active? && IsLaunching(s.pass.pc) && CallEnabled(s, e)
    ensures Inv(ApplyCall(s, e))
  {
    if IsLookup(s.pass.pc) {
      InvLookups(s, e);
    } else if IsUserData(s.pass.pc) {
      InvData(s, e);
    } else if s.pass.pc.AllocateHost? {
      InvAllocateHost(s, e);
    } else {
      InvLaunch(s, e);
    }
  }

  lemma InvOther(s: State, e: Event)
    requires Inv(s) && ControlShape(s) && !IsLaunching(s.pass.pc) && !IsDeleting(s.pass.pc) && CallEnabled(s, e)
    ensures Inv(ApplyCall(s, e))
  {
    match s.pass.pc {
      case Settle => InvSettle(s, e);
      case Finish => InvFinish(s, e);
      case DropRaw(_) => InvDropRaw(s, e);
      case DropSecrets(_) => InvDropSecrets(s, e);
      case DropObject(_) => InvDropObject(s, e);
      case Close => InvClose(s, e);
    }
  }

  lemma InvReleasing(s: State, e: Event)
    requires Inv(s) && ControlShape(s) && CallEnabled(s, e)
    requires s.pass.pc.FindDeleted? || s.pass.pc.Detach? || s.pass.pc.ReleaseHost? || s.pass.pc.PatchReleased?
    ensures Inv(StepDelete(s, e))
  {
    match s.pass.pc {
      case FindDeleted => InvFindDeleted(s, e);
      case Detach => InvDetach(s, e);
      case ReleaseHost => InvReleaseHost(s, e);
      case PatchReleased => InvPatchReleased(s, e);
    }
  }

  lemma InvTerminating(s: State, e: Event)
    requires Inv(s) && ControlShape(s) && CallEnabled(s, e)
    requires s.pass.pc.PatchDeleting? || s.pass.pc.Terminate? || s.pass.pc.PatchDetaching? || s.pass.pc.Cleanup?
    ensures Inv(StepDelete(s, e))
  {
    match s.pass.pc {
      case PatchDeleting => InvPatchDeleting(s, e);
      case Terminate => InvTerminate(s, e);
      case PatchDetaching => InvPatchDetaching(s, e);
      case Cleanup => InvAbort(s);
    }
  }

  lemma InvDeleting(s: State, e: Event)
    requires Inv(s) && ControlShape(s) && IsDeleting(s.pass.pc) && CallEnabled(s, e)
    ensures Inv(ApplyCall(s, e))
  {
    if s.pass.pc.FindDeleted? || s.pass.pc.Detach? || s.pass.pc.ReleaseHost? || s.pass.pc.PatchReleased? {
      InvReleasing(s, e);
    } else {
      InvTerminating(s, e);
    }
  }

  lemma InvStep(s: State, e: Event)
    requires Inv(s) && Enabled(s, e)
    ensures Inv(Apply(s, e))
  {
    if EnvironmentEvent(e) {
      if e.UserDelete? {
        InvUserDelete(s);
      } else {
        InvCloudMoves(s, e);
      }
    } else if s.pass.Idle? {
      InvBegin(s, e.dataRef);
    } else if !e.Crash? {
      if IsLaunching(s.pass.pc) {
        InvLaunching(s, e);
      } else if IsDeleting(s.pass.pc) {
        InvDeleting(s, e);
      } else {
        InvOther(s, e);
      }
    }
  }

  /** The invariant survives any sequence of events. */
  lemma {:induction false} InvFrom(s0: State, events: seq<Event>)
    requires Inv(s0) && Replay(s0, events).Some?
    ensures Inv(Replay(s0, events).value)
  {
    if events == [] {
    } else {
      var last := |events| - 1;
      InvFrom(s0, events[..last]);
      InvStep(Replay(s0, events[..last]).value, events[last]);
    }
  }

  lemma InvReachable(s: State)
    requires Reachable(s)
    ensures Inv(s)
  {
    var s0, events :| Init(s0) && Replay(s0, events) == Some(s);
    InvInit(s0);
    InvFrom(s0, events);
  }
}
