/** What one call can change in the pass, in the persisted object and in the cloud, at all. */
module MachineFrames {
  import opened Basics
  import opened MachineProtocol
  import opened MachineInvariant

  predicate SameIds(a: AWSMachine, b: AWSMachine) {
    a.providerID == b.providerID && a.instanceID == b.instanceID
  }

  /** Provider ID and instance ID name the same instance. */
  predicate IdsAgree(m: AWSMachine) {
    m.instanceID.Some? ==> m.providerID == For(m.instanceID.value)
  }

  /** Where each kind of outcome can come from. */
  predicate EventPoint(s: State, e: Event)
    requires s.pass.Active?
  {
    var p := s.pass;
    && (e.Patched? ==> IsPatch(p.pc) || p.pc.Close?)
    && (e.LookupDone? ==> p.pc.Find? || p.pc.FindDeleted?)
    && (e.SecretsCreated? ==> p.pc.CreateSecrets?)
    && (e.SecretsDeleted? ==> p.pc.DropSecrets? && DecideSecrets(s.cfg, p).DeleteSecret?)
    && (e.ObjectCreated? ==> p.pc.CreateObject?)
    && (e.ObjectDeleted? ==> p.pc.DropObject? && ObjectStepNeeded(s.cfg, p))
    && (e.HostAllocated? ==> p.pc.AllocateHost? && p.mem.host.None? && e.host !in s.cloud.hosts)
    && (e.HostReleased? ==> p.pc.ReleaseHost?)
    && (e.Launched? ==> p.pc.Launch?)
    && (e.TerminateCalled? ==> p.pc.Terminate?)
  }

  /** Patches other than the deferred one. */
  predicate IsPatch(pc: PC) {
    pc.PatchFinalizer? || pc.PatchStarted? || pc.PatchSecrets? || pc.PatchReleased? || pc.PatchDeleting?
    || pc.PatchDetaching?
  }

  lemma EventPoints(s: State, e: Event)
    requires s.pass.Active? && CallEnabled(s, e)
    ensures EventPoint(s, e)
  {}

  /** createInstance. */
  predicate AboutToCreate(pc: PC) {
    || pc.PatchStarted? || pc.RawData? || pc.CreateSecrets? || pc.PatchSecrets? || pc.UserData?
    || pc.CreateObject? || pc.AllocateHost? || pc.Launch?
  }

  /** A pass never comes back to the launch; what it has read stays; IDs are set together; only a successful allocation sets the host. */
  predicate PassFrame(s: State, e: Event, t: State)
    requires s.pass.Active?
  {
    && (t.pass.Active? <==> !s.pass.pc.Close?)
    && (t.pass.Active? ==>
          && (t.pass.pc.PatchSecrets? ==> s.pass.pc.CreateSecrets?)
          && (IsLaunching(t.pass.pc) ==> IsLaunching(s.pass.pc))
          && (t.pass.pc.PatchFinalizer? ==> s.pass.pc.Find?)
          && (AboutToCreate(t.pass.pc) ==>
                AboutToCreate(s.pass.pc) || s.pass.pc.Find? || (s.pass.pc.PatchFinalizer? && s.pass.found.Missing?))
          && (t.pass.mem.finalizer == s.pass.mem.finalizer
              || s.pass.pc.Find? || s.pass.pc.FindDeleted? || s.pass.pc.Detach? || s.pass.pc.PatchReleased?)
          && t.pass.before == s.pass.before && t.pass.nodeRef == s.pass.nodeRef && t.pass.dataRef == s.pass.dataRef
          && t.pass.mem.deleted == s.pass.mem.deleted
          && (SameIds(t.pass.mem, s.pass.mem) || (t.pass.mem.instanceID.Some? && IdsAgree(t.pass.mem)))
          && t.pass.mem.host == (if e.HostAllocated? && e.ok then Some(e.host) else s.pass.mem.host)
          && (!e.LookupDone? && !e.Launched? ==> t.pass.found == s.pass.found)
          && (!e.SecretsCreated? && !e.SecretsDeleted? ==> SameSecrets(t.pass.mem, s.pass.mem)))
  }

  /** The persisted object changes by patches, and each part of the cloud by its own calls. */
  predicate CloudFrame(s: State, e: Event, t: State)
    requires s.pass.Active?
  {
    && t.cfg == s.cfg && t.nodeRef == s.nodeRef
    && t.store == (if e.Patched? then PatchedStore(s.store, s.pass.before, s.pass.mem, e.o) else s.store)
    && t.cloud.created == (if e.Launched? then s.cloud.created + {e.id} else s.cloud.created)
    && (!e.Launched? && !e.TerminateCalled? ==> t.cloud.instances == s.cloud.instances)
    && (e.TerminateCalled? && s.pass.found.Found? ==>
          t.cloud.instances == s.cloud.instances || t.cloud.instances == s.cloud.instances[s.pass.found.id := ShuttingDown])
    && (!e.SecretsCreated? && !e.SecretsDeleted? ==> t.cloud.secrets == s.cloud.secrets)
    && (e.SecretsCreated? ==> s.cloud.secrets <= t.cloud.secrets)
    && (e.SecretsDeleted? ==> t.cloud.secrets <= s.cloud.secrets)
    && (!e.ObjectCreated? && !e.ObjectDeleted? ==> t.cloud.bucketObject == s.cloud.bucketObject)
    && (e.ObjectCreated? && s.cloud.bucketObject ==> t.cloud.bucketObject)
    && (e.ObjectDeleted? && t.cloud.bucketObject ==> s.cloud.bucketObject)
    && (!e.HostAllocated? && !e.HostReleased? ==> t.cloud.hosts == s.cloud.hosts)
    && (e.HostAllocated? ==> t.cloud.hosts == s.cloud.hosts + {e.host})
    && (e.HostReleased? && s.pass.mem.host.Some? ==> s.cloud.hosts - {s.pass.mem.host.value} <= t.cloud.hosts <= s.cloud.hosts)
  }

  predicate Frame(s: State, e: Event, t: State)
    requires s.pass.Active?
  {
    PassFrame(s, e, t) && CloudFrame(s, e, t)
  }

  /** Moving on without any effect. */
  predicate Effectless(e: Event) {
    e.Call? || e.Tick? || e.LookupFailed? || e.LookupDone?
  }

  lemma FrameMove(s: State, e: Event, pc: PC)
    requires s.pass.Active? && Effectless(e) && !s.pass.pc.Close? && !pc.PatchSecrets?
    requires IsLaunching(pc) ==> IsLaunching(s.pass.pc)
    requires !pc.PatchFinalizer? && (AboutToCreate(pc) ==> AboutToCreate(s.pass.pc))
    ensures Frame(s, e, s.(pass := At(s.pass, pc)))
  {}

  lemma FrameGate(s: State, e: Event)
    requires s.pass.Active? && CallEnabled(s, e) && s.pass.pc.Gate?
    ensures Frame(s, e, StepLookup(s, e))
  {}

  lemma FrameFindPool(s: State, e: Event)
    requires s.pass.Active? && CallEnabled(s, e) && s.pass.pc.Find? && e.LookupDone? && e.result.Missing? && !s.pass.mem.providerID.For? && s.cfg.pool
    ensures Frame(s, e, StepLookup(s, e))
  {}

  lemma FrameFindNone(s: State, e: Event)
    requires s.pass.Active? && CallEnabled(s, e) && s.pass.pc.Find? && e.LookupDone? && e.result.Missing? && !s.pass.mem.providerID.For? && !s.cfg.pool
    ensures Frame(s, e, StepLookup(s, e))
  {}

  lemma FrameFindMissing(s: State, e: Event)
    requires s.pass.Active? && CallEnabled(s, e) && s.pass.pc.Find? && (e.LookupFailed? || e.result.Missing?)
    ensures Frame(s, e, StepLookup(s, e))
  {
    if e.LookupFailed? || s.pass.mem.providerID.For? {
      FrameMove(s, e, Close);
    } else if s.cfg.pool {
      FrameFindPool(s, e);
    } else {
      FrameFindNone(s, e);
    }
  }

  lemma FrameFindFound(s: State, e: Event)
    requires s.pass.Active? && CallEnabled(s, e) && s.pass.pc.Find? && e.LookupDone? && e.result.Found?
    ensures Frame(s, e, StepLookup(s, e))
  {}

  lemma FramePatchFinalizer(s: State, e: Event)
    requires s.pass.Active? && CallEnabled(s, e) && s.pass.pc.PatchFinalizer?
    ensures Frame(s, e, StepLookup(s, e))
  {}

  lemma FramePatchStarted(s: State, e: Event)
    requires s.pass.Active? && CallEnabled(s, e) && s.pass.pc.PatchStarted?
    ensures Frame(s, e, StepUserData(s, e))
  {}

  lemma RawDataMoves(s: State, e: Event)
    requires s.pass.Active? && CallEnabled(s, e) && s.pass.pc.RawData?
    ensures e.Call? && StepUserData(s, e).pass.Active?
    ensures !StepUserData(s, e).pass.pc.PatchSecrets? && !StepUserData(s, e).pass.pc.PatchFinalizer?
    ensures StepUserData(s, e) == s.(pass := At(s.pass, StepUserData(s, e).pass.pc))
  {}

  lemma FrameRawData(s: State, e: Event)
    requires s.pass.Active? && CallEnabled(s, e) && s.pass.pc.RawData?
    ensures Frame(s, e, StepUserData(s, e))
  {
    RawDataMoves(s, e);
    FrameMove(s, e, StepUserData(s, e).pass.pc);
  }

  lemma FrameCreateSecrets(s: State, e: Event)
    requires s.pass.Active? && CallEnabled(s, e) && s.pass.pc.CreateSecrets?
    ensures Frame(s, e, StepUserData(s, e))
  {}

  lemma FramePatchSecrets(s: State, e: Event)
    requires s.pass.Active? && CallEnabled(s, e) && s.pass.pc.PatchSecrets?
    ensures Frame(s, e, StepUserData(s, e))
  {}

  lemma FrameUserData(s: State, e: Event)
    requires s.pass.Active? && CallEnabled(s, e) && s.pass.pc.UserData?
    ensures Frame(s, e, StepUserData(s, e))
  {}

  lemma FrameCreateObject(s: State, e: Event)
    requires s.pass.Active? && CallEnabled(s, e) && s.pass.pc.CreateObject?
    ensures Frame(s, e, StepUserData(s, e))
  {}

  lemma FrameHost(s: State, e: Event)
    requires s.pass.Active? && CallEnabled(s, e) && s.pass.pc.AllocateHost?
    ensures Frame(s, e, StepLaunch(s, e))
  {}

  lemma FrameLaunchFailed(s: State, e: Event)
    requires s.pass.Active? && CallEnabled(s, e) && s.pass.pc.Launch? && e.LaunchFailed?
    ensures Frame(s, e, StepLaunch(s, e))
  {}

  lemma FrameLaunchOk(s: State, e: Event)
    requires s.pass.Active? && CallEnabled(s, e) && s.pass.pc.Launch? && e.Launched? && e.launch.LaunchOk?
    ensures Frame(s, e, StepLaunch(s, e))
  {}

  lemma FrameLaunchRecorded(s: State, e: Event)
    requires s.pass.Active? && CallEnabled(s, e) && s.pass.pc.Launch? && e.Launched? && e.launch.ErrorRecorded?
    ensures Frame(s, e, StepLaunch(s, e))
  {}

  lemma FrameLaunchUnrecorded(s: State, e: Event)
    requires s.pass.Active? && CallEnabled(s, e) && s.pass.pc.Launch? && e.Launched? && e.launch.ErrorUnrecorded?
    ensures Frame(s, e, StepLaunch(s, e))
  {}

  lemma FrameSettle(s: State, e: Event)
    requires ControlShape(s) && CallEnabled(s, e) && s.pass.pc.Settle?
    ensures Frame(s, e, ApplyCall(s, e))
  {}

  lemma FrameRest(s: State, e: Event)
    requires ControlShape(s) && CallEnabled(s, e) && (s.pass.pc.Finish? || s.pass.pc.Close?)
    ensures Frame(s, e, ApplyCall(s, e))
  {}

  lemma FrameDropRaw(s: State, e: Event)
    requires s.pass.Active? && CallEnabled(s, e) && s.pass.pc.DropRaw?
    ensures Frame(s, e, StepDrop(s, e))
  {}

  lemma FrameKeepSecrets(s: State, e: Event)
    requires s.pass.Active? && CallEnabled(s, e) && s.pass.pc.DropSecrets? && e.Tick?
    ensures Frame(s, e, StepDrop(s, e))
  {}

  lemma FrameDropSecrets(s: State, e: Event)
    requires s.pass.Active? && CallEnabled(s, e) && s.pass.pc.DropSecrets? && e.SecretsDeleted?
    ensures Frame(s, e, StepDrop(s, e))
  {}

  lemma FrameReturnNormal(s: State, e: Event)
    requires s.pass.Active? && CallEnabled(s, e) && s.pass.pc == DropObject(FromNormal) && e.Tick?
    ensures Frame(s, e, StepDrop(s, e))
  {}

  lemma FrameNoObject(s: State, e: Event)
    requires s.pass.Active? && CallEnabled(s, e) && s.pass.pc.DropObject? && e.Tick?
    ensures Frame(s, e, StepDrop(s, e))
  {
    match s.pass.pc.caller {
      case FromNormal => FrameReturnNormal(s, e);
      case FromFailed => FrameMove(s, e, Close);
      case FromDelete => FrameMove(s, e, FindDeleted);
    }
  }

  lemma FrameDropObject(s: State, e: Event)
    requires s.pass.Active? && CallEnabled(s, e) && s.pass.pc.DropObject? && e.ObjectDeleted?
    ensures Frame(s, e, StepDrop(s, e))
  {}

  lemma FrameLookupFailed(s: State, e: Event)
    requires ControlShape(s) && CallEnabled(s, e) && s.pass.pc.FindDeleted? && e.LookupFailed?
    ensures Frame(s, e, StepDelete(s, e))
  {}

  lemma FrameNotFound(s: State, e: Event)
    requires ControlShape(s) && CallEnabled(s, e) && s.pass.pc.FindDeleted? && e.LookupDone? && e.result.Missing?
    ensures Frame(s, e, StepDelete(s, e))
  {}

  lemma FrameFound(s: State, e: Event)
    requires ControlShape(s) && CallEnabled(s, e) && s.pass.pc.FindDeleted? && e.LookupDone? && e.result.Found?
    ensures Frame(s, e, StepDelete(s, e))
  {}

  lemma FrameDetachLast(s: State, e: Event)
    requires ControlShape(s) && CallEnabled(s, e) && s.pass.pc.Detach? && e.ok && s.pass.found.state.Terminated? && !(s.pass.mem.host.Some? && s.cfg.dynamicHost)
    ensures Frame(s, e, StepDelete(s, e))
  {}

  lemma FrameDetach(s: State, e: Event)
    requires ControlShape(s) && CallEnabled(s, e) && s.pass.pc.Detach?
    ensures Frame(s, e, StepDelete(s, e))
  {
    if !e.ok || s.pass.found.state.ShuttingDown? {
      FrameMove(s, e, Close);
    } else if !s.pass.found.state.Terminated? {
      FrameMove(s, e, PatchDeleting);
    } else if s.pass.mem.host.Some? && s.cfg.dynamicHost {
      FrameMove(s, e, ReleaseHost);
    } else {
      FrameDetachLast(s, e);
    }
  }

  lemma FrameRelease(s: State, e: Event)
    requires ControlShape(s) && CallEnabled(s, e) && s.pass.pc.ReleaseHost?
    ensures Frame(s, e, StepDelete(s, e))
  {}

  lemma FramePatchReleased(s: State, e: Event)
    requires ControlShape(s) && CallEnabled(s, e) && s.pass.pc.PatchReleased?
    ensures Frame(s, e, StepDelete(s, e))
  {}

  lemma FramePatchDeleting(s: State, e: Event)
    requires ControlShape(s) && CallEnabled(s, e) && s.pass.pc.PatchDeleting?
    ensures Frame(s, e, StepDelete(s, e))
  {}

  lemma FrameTerminate(s: State, e: Event)
    requires ControlShape(s) && CallEnabled(s, e) && s.pass.pc.Terminate?
    ensures Frame(s, e, StepDelete(s, e))
  {}

  lemma FrameCleanup(s: State, e: Event)
    requires ControlShape(s) && CallEnabled(s, e) && (s.pass.pc.PatchDetaching? || s.pass.pc.Cleanup?)
    ensures Frame(s, e, StepDelete(s, e))
  {}

  lemma FrameLookup(s: State, e: Event)
    requires ControlShape(s) && CallEnabled(s, e) && IsLookup(s.pass.pc)
    ensures Frame(s, e, ApplyCall(s, e))
  {
    if s.pass.pc.Gate? {
      FrameGate(s, e);
    } else if s.pass.pc.PatchFinalizer? {
      FramePatchFinalizer(s, e);
    } else if e.LookupFailed? || e.result.Missing? {
      FrameFindMissing(s, e);
    } else {
      FrameFindFound(s, e);
    }
  }

  lemma FrameData(s: State, e: Event)
    requires ControlShape(s) && CallEnabled(s, e) && IsUserData(s.pass.pc)
    ensures Frame(s, e, ApplyCall(s, e))
  {
    match s.pass.pc {
      case PatchStarted => FramePatchStarted(s, e);
      case RawData => FrameRawData(s, e);
      case CreateSecrets => FrameCreateSecrets(s, e);
      case PatchSecrets => FramePatchSecrets(s, e);
      case UserData => FrameUserData(s, e);
      case CreateObject => FrameCreateObject(s, e);
    }
  }

  lemma FrameLaunching(s: State, e: Event)
    requires ControlShape(s) && CallEnabled(s, e) && (s.pass.pc.AllocateHost? || s.pass.pc.Launch?)
    ensures Frame(s, e, ApplyCall(s, e))
  {
    if s.pass.pc.AllocateHost? {
      FrameHost(s, e);
    } else if e.LaunchFailed? {
      FrameLaunchFailed(s, e);
    } else if e.launch.LaunchOk? {
      FrameLaunchOk(s, e);
    } else if e.launch.ErrorRecorded? {
      FrameLaunchRecorded(s, e);
    } else {
      FrameLaunchUnrecorded(s, e);
    }
  }

  lemma FrameDropping(s: State, e: Event)
    requires ControlShape(s) && CallEnabled(s, e) && (s.pass.pc.DropRaw? || s.pass.pc.DropSecrets? || s.pass.pc.DropObject?)
    ensures Frame(s, e, ApplyCall(s, e))
  {
    if s.pass.pc.DropRaw? {
      FrameDropRaw(s, e);
    } else if s.pass.pc.DropSecrets? && e.Tick? {
      FrameKeepSecrets(s, e);
    } else if s.pass.pc.DropSecrets? {
      FrameDropSecrets(s, e);
    } else if e.Tick? {
      FrameNoObject(s, e);
    } else {
      FrameDropObject(s, e);
    }
  }

  lemma FrameDeleting(s: State, e: Event)
    requires ControlShape(s) && CallEnabled(s, e) && IsDeleting(s.pass.pc)
    ensures Frame(s, e, ApplyCall(s, e))
  {
    match s.pass.pc {
      case FindDeleted =>
        if e.LookupFailed? {
          FrameLookupFailed(s, e);
        } else if e.result.Missing? {
          FrameNotFound(s, e);
        } else {
          FrameFound(s, e);
        }
      case Detach => FrameDetach(s, e);
      case ReleaseHost => FrameRelease(s, e);
      case PatchReleased => FramePatchReleased(s, e);
      case PatchDeleting => FramePatchDeleting(s, e);
      case Terminate => FrameTerminate(s, e);
      case _ => FrameCleanup(s, e);
    }
  }

  lemma FrameCall(s: State, e: Event)
    requires ControlShape(s) && CallEnabled(s, e)
    ensures Frame(s, e, ApplyCall(s, e)) && EventPoint(s, e)
  {
    EventPoints(s, e);
    var pc := s.pass.pc;
    if IsLookup(pc) {
      FrameLookup(s, e);
    } else if IsUserData(pc) {
      FrameData(s, e);
    } else if pc.AllocateHost? || pc.Launch? {
      FrameLaunching(s, e);
    } else if IsDeleting(pc) {
      FrameDeleting(s, e);
    } else if pc.DropRaw? || pc.DropSecrets? || pc.DropObject? {
      FrameDropping(s, e);
    } else if pc.Settle? {
      FrameSettle(s, e);
    } else {
      FrameRest(s, e);
    }
  }
}
