/**
 The reconcile functions in their own shape: statements, early returns and a deferred patch.

 Every method is proved to take only steps of the machine in MachineProtocol.dfy, so whatever is
 proved about its runs holds of these methods, in every interleaving and with every outcome.
 */
module MachineController {
  import opened Basics
  import opened MachineProtocol
  import opened MachineFrames
  import opened MachineSafety

  /** What a function of the controller returns: nil, an error, or nothing because the process died. */
  datatype Result = Done | Failed | Crashed

  /** The log leads from s0 to s.  The quantifier keeps proofs from looking into a log they do not ask about. */
  ghost predicate Ran(s0: State, log: seq<Event>, s: State) {
    forall events | events <= log && |log| <= |events| :: Replay(s0, events) == Some(s)
  }

  class Reconciler {
    const cfg: Config

    // the world
    var store: Option<AWSMachine>
    var nodeRef: bool
    var cloud: Cloud

    // the pass under way: machine scope, patch helper and local variables
    var pass: Pass

    // the run so far and the state it leads to; while an outcome is pending, control has yet to
    // arrive there from the state in which the call was made
    ghost var start: State
    ghost var log: seq<Event>
    ghost var target: State
    ghost var base: State
    ghost var pending: Option<Event>

    function Now(): State
      reads this
    {
      State(cfg, store, nodeRef, cloud, pass)
    }

    ghost predicate Valid()
      reads this
    {
      Ran(start, log, target) && (pending.None? ==> Now() == target)
    }

    /** The pass is about to make the call at this point. */
    ghost predicate Before(pc: PC)
      reads this
    {
      Valid() && pending.None? && pass.Active? && pass.pc == pc
    }

    /** Where a function that returned r leaves the pass. */
    ghost predicate After(r: Result, pc: PC)
      reads this
    {
      match r
      case Done => Before(pc)
      case Failed => Before(Close)
      case Crashed => Valid() && pending.None? && pass.Idle?
    }

    constructor (s: State)
      requires Init(s)
      ensures Valid() && pending.None? && Now() == s && start == s && log == []
    {
      cfg := s.cfg;
      store, nodeRef, cloud, pass := s.store, s.nodeRef, s.cloud, s.pass;
      start, log, target, base, pending := s, [], s, s, None;
    }

    // -------------------------------------------------------------------------------------------
    // Calls
    // -------------------------------------------------------------------------------------------

    method InterfereOnce()
      requires Valid() && pending.None?
      modifies `store, `nodeRef, `cloud, `log, `target
      ensures Valid() && old(log) <= log
    {
      var e: Event := *;
      if EnvironmentEvent(e) && EnvironmentEnabled(Now(), e) {
        var t := ApplyEnvironment(Now(), e);
        Disturbed(start, log, target, e);
        OutsideFrame(Now(), e);
        store, nodeRef, cloud := t.store, t.nodeRef, t.cloud;
        log, target := log + [e], t;
      }
    }

    /** The environment may take any number of steps while a call is under way. */
    method Interfere()
      requires Valid() && pending.None?
      modifies `store, `nodeRef, `cloud, `log, `target, `base
      ensures Valid() && pass == old(pass) && old(log) <= log
    {
      var n: nat := *;
      while n > 0
        invariant Valid() && pending.None? && pass == old(pass) && old(log) <= log
      {
        InterfereOnce();
        n := n - 1;
      }
    }

    /** Makes the call at the current program point and waits for one of its possible outcomes. */
    method Call() returns (e: Event)
      requires Valid() && pending.None? && pass.Active?
      modifies `store, `nodeRef, `cloud, `log, `target, `base, `pending
      ensures Valid() && pending == Some(e) && Now() == base && pass == old(pass) && old(log) <= log
      ensures e.Crash? ==> target == base.(pass := Idle)
      ensures !e.Crash? ==> ControlShape(base) && CallEnabled(base, e) && target == ApplyCall(base, e)
    {
      Interfere();
      e := *;
      if EnvironmentEvent(e) || e.Crash? || !ControlShape(Now()) || !CallEnabled(Now(), e) {
        e := Crash;
      }
      Called(start, log, target, e);
      log, base, target, pending := log + [e], Now(), if e.Crash? then Now().(pass := Idle) else ApplyCall(Now(), e), Some(e);
    }

    /** Control arrives at the next program point: the outcome and what followed are one step. */
    method Arrive(pc: PC)
      requires Valid() && pending.Some? && pass.Active?
      requires Now().(pass := At(pass, pc)) == target
      modifies `pass, `pending
      ensures Before(pc) && pass == At(old(pass), pc)
    {
      pass := At(pass, pc);
      pending := None;
    }

    /** The process dies; the in-memory object is lost. */
    method Die()
      requires Valid() && pending.Some? && Now().(pass := Idle) == target
      modifies `pass, `pending
      ensures After(Crashed, Close)
    {
      pass := Idle;
      pending := None;
    }

    /** machineScope.PatchObject. */
    method PatchObject() returns (r: Result)
      requires Valid() && pending.None? && pass.Active?
      requires (IsPatch(pass.pc) && !pass.pc.PatchStarted? && !pass.pc.PatchDetaching?) || pass.pc.Close?
      modifies `store, `nodeRef, `cloud, `log, `target, `base, `pending, `pass
      ensures old(log) <= log
      ensures r.Crashed? ==> After(Crashed, Close)
      ensures !r.Crashed? ==>
                && Valid() && pass == old(pass)
                && pending.Some? && pending.value.Patched? && (r.Failed? <==> pending.value.o.err)
                && Now() == base.(store := PatchedStore(base.store, pass.before, pass.mem, pending.value.o))
                && ControlShape(base) && CallEnabled(base, pending.value) && target == ApplyCall(base, pending.value)
    {
      var e := Call();
      if e.Crash? {
        Die();
        return Crashed;
      }
      store := PatchedStore(store, pass.before, pass.mem, e.o);
      return if e.o.err then Failed else Done;
    }

    // -------------------------------------------------------------------------------------------
    // deleteBootstrapData
    // -------------------------------------------------------------------------------------------

    /** deleteEncryptedBootstrapDataSecret, or nothing when the machine keeps no secrets. */
    method DeleteEncryptedBootstrapDataSecret(caller: Caller) returns (r: Result)
      requires Before(DropSecrets(caller))
      modifies `store, `nodeRef, `cloud, `log, `target, `base, `pending, `pass
      ensures old(log) <= log
      ensures After(r, DropObject(caller))
      ensures r.Done? ==> pass.found == old(pass.found)
    {
      var e := Call();
      if e.Crash? {
        Die();
        return Crashed;
      }
      if UsesSecrets(cfg) {
        if !cfg.bootstrap.backendValid {
          Arrive(Close);
          return Failed;
        }
        // do nothing if there isn't a secret
        if pass.mem.secretPrefix == "" {
          Arrive(DropObject(caller));
          return Done;
        }
        if pass.mem.secretCount == 0 {
          Arrive(Close);
          return Failed;
        }
        if !StillNeeded(pass) {
          cloud := cloud.(secrets := cloud.secrets - Entries(pass.mem.secretPrefix, e.gone * Below(pass.mem.secretCount)));
          if !e.ok {
            Arrive(Close);
            return Failed;
          }
          pass := pass.(mem := pass.mem.(secretPrefix := "", secretCount := 0));
        }
      }
      Arrive(DropObject(caller));
      return Done;
    }

    /** deleteIgnitionBootstrapDataFromS3, or nothing without an object store. */
    method DeleteIgnitionBootstrapData(caller: Caller) returns (r: Result)
      requires Before(DropObject(caller))
      requires caller.FromNormal? ==> pass.found.Found?
      modifies `store, `nodeRef, `cloud, `log, `target, `base, `pending, `pass
      ensures old(log) <= log
      ensures !r.Done? ==> After(r, Close)
      ensures r.Done? ==>
                && Valid() && pending.Some? && pass.Active? && pass == old(pass)
                && Now().(pass := Return(pass, caller)) == target
    {
      var e := Call();
      if e.Crash? {
        Die();
        return Crashed;
      }
      if cfg.objectStore && !StillNeeded(pass) && pass.dataRef {
        if UsesObjectStore(cfg) && e.removed {
          cloud := cloud.(bucketObject := false);
        }
        if !e.ok {
          Arrive(Close);
          return Failed;
        }
      }
      return Done;
    }

    /** The bootstrap data is read first, if the machine refers to any. */
    method ReadBootstrapData(caller: Caller) returns (r: Result)
      requires Before(DropRaw(caller))
      modifies `store, `nodeRef, `cloud, `log, `target, `base, `pending, `pass
      ensures old(log) <= log
      ensures !r.Done? ==> After(r, Close)
      ensures r.Done? ==> Before(DropSecrets(caller)) && pass.found == old(pass.found)
    {
      var e := Call();
      if e.Crash? {
        Die();
        return Crashed;
      }
      if pass.dataRef && !e.ok {
        Arrive(Close);
        return Failed;
      }
      Arrive(DropSecrets(caller));
      return Done;
    }

    /** deleteBootstrapData. */
    method DeleteBootstrapData(caller: Caller) returns (r: Result)
      requires Before(DropRaw(caller))
      requires caller.FromNormal? ==> pass.found.Found?
      modifies `store, `nodeRef, `cloud, `log, `target, `base, `pending, `pass
      ensures old(log) <= log
      ensures !r.Done? ==> After(r, Close)
      ensures r.Done? ==>
                && Valid() && pending.Some? && pass.Active? && pass.found == old(pass.found)
                && Now().(pass := Return(pass, caller)) == target
    {
      r := ReadBootstrapData(caller);
      if r != Done {
        return;
      }
      r := DeleteEncryptedBootstrapDataSecret(caller);
      if r != Done {
        return;
      }
      r := DeleteIgnitionBootstrapData(caller);
    }

    // -------------------------------------------------------------------------------------------
    // createInstance
    // -------------------------------------------------------------------------------------------

    /** secretSvc.Create; the record is kept in memory if at least one entry was created. */
    method CreateSecretEntries() returns (r: Result)
      requires Before(CreateSecrets)
      modifies `store, `nodeRef, `cloud, `log, `target, `base, `pending, `pass
      ensures old(log) <= log
      ensures After(r, PatchSecrets)
    {
      var e := Call();
      if e.Crash? {
        Die();
        return Crashed;
      }
      if e.Call? {
        Arrive(Close);
        return Failed;
      }
      cloud := cloud.(secrets := cloud.secrets + Entries(e.prefix, Below(e.chunks)));
      if e.chunks > 0 {
        pass := pass.(mem := pass.mem.(secretPrefix := e.prefix, secretCount := e.chunks), secretErr := e.err);
      } else {
        pass := pass.(secretErr := e.err);
      }
      Arrive(PatchSecrets);
      return Done;
    }

    /** cloudInitUserData: the prefix is patched immediately, before any error is looked at. */
    method CloudInitUserData() returns (r: Result)
      requires Before(CreateSecrets)
      modifies `store, `nodeRef, `cloud, `log, `target, `base, `pending, `pass
      ensures old(log) <= log
      ensures After(r, AfterUserData(cfg, old(pass)).pc)
    {
      r := CreateSecretEntries();
      if r != Done {
        return;
      }
      r := PatchSecretRecord();
      if r != Done {
        return;
      }
      r := BuildUserData();
    }

    method PatchSecretRecord() returns (r: Result)
      requires Before(PatchSecrets)
      modifies `store, `nodeRef, `cloud, `log, `target, `base, `pending, `pass
      ensures old(log) <= log
      ensures After(r, UserData)
    {
      r := PatchObject();
      if r.Crashed? {
        return;
      }
      if r.Failed? || pass.secretErr {
        Arrive(Close);
        return Failed;
      }
      Arrive(UserData);
    }

    /** secretSvc.UserData. */
    method BuildUserData() returns (r: Result)
      requires Before(UserData)
      modifies `store, `nodeRef, `cloud, `log, `target, `base, `pending, `pass
      ensures old(log) <= log
      ensures After(r, AfterUserData(cfg, old(pass)).pc)
    {
      var e := Call();
      if e.Crash? {
        Die();
        return Crashed;
      }
      if !e.ok {
        Arrive(Close);
        return Failed;
      }
      pass := pass.(userData := Some((pass.mem.secretPrefix, pass.mem.secretCount)));
      Arrive(AfterUserData(cfg, pass).pc);
      return Done;
    }

    /** generateIgnitionWithRemoteStorage. */
    method GenerateIgnitionWithRemoteStorage() returns (r: Result)
      requires Before(CreateObject)
      modifies `store, `nodeRef, `cloud, `log, `target, `base, `pending, `pass
      ensures old(log) <= log
      ensures After(r, AfterUserData(cfg, old(pass)).pc)
    {
      var e := Call();
      if e.Crash? {
        Die();
        return Crashed;
      }
      if e.Call? {
        Arrive(Close);
        return Failed;
      }
      if e.stored {
        cloud := cloud.(bucketObject := true);
      }
      if !e.ok {
        Arrive(Close);
        return Failed;
      }
      Arrive(AfterUserData(cfg, pass).pc);
      return Done;
    }

    /** resolveUserData. */
    method ResolveUserData() returns (r: Result)
      requires Before(RawData)
      modifies `store, `nodeRef, `cloud, `log, `target, `base, `pending, `pass
      ensures old(log) <= log
      ensures After(r, AfterUserData(cfg, old(pass)).pc)
    {
      var e := Call();
      if e.Crash? {
        Die();
        return Crashed;
      }
      if !e.ok {
        Arrive(Close);
        return Failed;
      }
      match cfg.bootstrap {
        case Secrets(_) =>
          Arrive(CreateSecrets);
          r := CloudInitUserData();
        case Plain =>
          Arrive(AfterUserData(cfg, pass).pc);
          r := Done;
        case Ignition(ClusterObjectStore) =>
          Arrive(CreateObject);
          r := GenerateIgnitionWithRemoteStorage();
        case Ignition(UnencryptedUserData) =>
          Arrive(AfterUserData(cfg, pass).pc);
          r := Done;
        case Ignition(UnsupportedStorage) =>
          Arrive(Close);
          r := Failed;
      }
    }

    /** CreateInstance failed without an instance, possibly marking the machine as failed. */
    method GiveUpLaunch(e: Event)
      requires Valid() && pending == Some(e) && e.LaunchFailed? && pass.Active?
      requires target == Now().(pass := GivenUp(pass, e.markFailed))
      modifies `store, `nodeRef, `cloud, `log, `target, `base, `pending, `pass
      ensures old(log) <= log
      ensures After(Failed, Close)
    {
      pass := pass.(mem := pass.mem.(failed := pass.mem.failed || e.markFailed));
      Arrive(Close);
    }

    /** ensureDedicatedHostAllocation. */
    method EnsureDedicatedHost() returns (r: Result)
      requires Before(AllocateHost)
      modifies `store, `nodeRef, `cloud, `log, `target, `base, `pending, `pass
      ensures old(log) <= log
      ensures After(r, Launch)
    {
      var e := Call();
      if e.Crash? {
        Die();
        return Crashed;
      }
      if e.LaunchFailed? {
        GiveUpStep(base, e);
        GiveUpLaunch(e);
        return Failed;
      }
      if pass.mem.host.None? {
        cloud := cloud.(hosts := cloud.hosts + {e.host});
        if !e.ok {
          Arrive(Close);
          return Failed;
        }
        pass := pass.(mem := pass.mem.(host := Some(e.host)));
      }
      Arrive(Launch);
      return Done;
    }

    /** RunInstances and the calls after it that may still fail. */
    method RunInstance() returns (r: Result)
      requires Before(Launch)
      modifies `store, `nodeRef, `cloud, `log, `target, `base, `pending, `pass
      ensures old(log) <= log
      ensures After(r, Settle)
      ensures r.Done? ==> pass.found.Found?
    {
      var e := Call();
      if e.Crash? {
        Die();
        return Crashed;
      }
      if e.LaunchFailed? {
        GiveUpStep(base, e);
        GiveUpLaunch(e);
        return Failed;
      }
      cloud := cloud.(instances := cloud.instances[e.id := e.state], created := cloud.created + {e.id});
      // Set the provider ID as soon as the instance exists, to keep it in case of errors afterward.
      if !e.launch.ErrorUnrecorded? {
        pass := pass.(mem := pass.mem.(providerID := For(e.id), instanceID := Some(e.id)),
                      found := if e.launch.LaunchOk? then Found(e.id, e.state) else pass.found);
      }
      Arrive(if e.launch.LaunchOk? then Settle else Close);
      return if e.launch.LaunchOk? then Done else Failed;
    }

    /** Lines 556-562: the condition patch, skipped after an earlier failed attempt. */
    method PatchProvisionStarted() returns (r: Result)
      requires Before(PatchStarted)
      modifies `store, `nodeRef, `cloud, `log, `target, `base, `pending, `pass
      ensures old(log) <= log
      ensures After(r, RawData)
    {
      var e := Call();
      if e.Crash? {
        Die();
        return Crashed;
      }
      if e.Patched? {
        store := PatchedStore(store, pass.before, pass.mem, e.o);
        if e.o.err {
          Arrive(Close);
          return Failed;
        }
      }
      Arrive(RawData);
      return Done;
    }

    /** createInstance, with the condition patch before it. */
    method CreateInstance() returns (r: Result)
      requires Before(PatchStarted)
      modifies `store, `nodeRef, `cloud, `log, `target, `base, `pending, `pass
      ensures old(log) <= log
      ensures After(r, Settle)
      ensures r.Done? ==> pass.found.Found?
    {
      r := PatchProvisionStarted();
      if r != Done {
        return;
      }
      r := ResolveUserData();
      if r != Done {
        return;
      }
      r := LaunchInstance();
    }

    /** ec2svc.CreateInstance. */
    method LaunchInstance() returns (r: Result)
      requires Before(if cfg.dynamicHost then AllocateHost else Launch)
      modifies `store, `nodeRef, `cloud, `log, `target, `base, `pending, `pass
      ensures old(log) <= log
      ensures After(r, Settle)
      ensures r.Done? ==> pass.found.Found?
    {
      if cfg.dynamicHost {
        r := EnsureDedicatedHost();
        if r != Done {
          return;
        }
      }
      r := RunInstance();
    }

    // -------------------------------------------------------------------------------------------
    // findInstance
    // -------------------------------------------------------------------------------------------

    /** By ID it finds the instance or fails; by tags it may find nothing. */
    method FindInstance() returns (r: Result, notFoundById: bool)
      requires Before(Find) || Before(FindDeleted)
      modifies `store, `nodeRef, `cloud, `log, `target, `base, `pending, `pass
      ensures old(log) <= log
      ensures r.Crashed? ==> After(Crashed, Close)
      ensures !r.Crashed? ==> Valid() && pending.Some? && ControlShape(base) && base.pass == old(pass)
                              && CallEnabled(base, pending.value) && target == ApplyCall(base, pending.value)
      ensures r.Failed? ==> Now() == base
      ensures r.Failed? && !notFoundById ==> pending.value.LookupFailed?
      ensures r.Failed? && notFoundById ==> pending.value == LookupDone(Missing) && base.pass.mem.providerID.For?
      ensures r.Done? ==>
                && pending.value.LookupDone? && !notFoundById
                && !(pending.value.result.Missing? && old(pass).mem.providerID.For?)
                && Now() == base.(pass := base.pass.(found := pending.value.result))
    {
      notFoundById := false;
      var e := Call();
      if e.Crash? {
        Die();
        return Crashed, false;
      }
      if e.LookupFailed? {
        return Failed, false;
      }
      if e.result.Missing? && pass.mem.providerID.For? {
        return Failed, true;
      }
      pass := pass.(found := e.result);
      return Done, false;
    }

    // -------------------------------------------------------------------------------------------
    // reconcileNormal
    // -------------------------------------------------------------------------------------------

    /** If the AWSMachine doesn't have our finalizer, add it and persist that. */
    method EnsureFinalizer() returns (r: Result)
      requires Valid() && pending.Some? && pass.Active?
      requires target == Now().(pass := AfterFind(pass))
      modifies `store, `nodeRef, `cloud, `log, `target, `base, `pending, `pass
      ensures old(log) <= log
      ensures After(r, if old(pass).found.Missing? then PatchStarted else Settle)
      ensures r.Done? ==> pass.found == old(pass).found
    {
      if !pass.mem.finalizer {
        pass := pass.(mem := pass.mem.(finalizer := true));
        Arrive(PatchFinalizer);
        r := RegisterFinalizer();
      } else {
        Arrive(if pass.found.Missing? then PatchStarted else Settle);
        r := Done;
      }
    }

    method RegisterFinalizer() returns (r: Result)
      requires Before(PatchFinalizer) && pass.mem.finalizer
      modifies `store, `nodeRef, `cloud, `log, `target, `base, `pending, `pass
      ensures old(log) <= log
      ensures After(r, if old(pass).found.Missing? then PatchStarted else Settle)
      ensures r.Done? ==> pass.found == old(pass).found
    {
      r := PatchObject();
      if r.Crashed? {
        return;
      }
      if r.Failed? {
        Arrive(Close);
        return;
      }
      Arrive(if pass.found.Missing? then PatchStarted else Settle);
    }

    /** The lookup of reconcileNormal, and the finalizer. */
    method FindUnderFinalizer() returns (r: Result)
      requires Before(Find)
      modifies `store, `nodeRef, `cloud, `log, `target, `base, `pending, `pass
      ensures old(log) <= log
      ensures !r.Done? ==> After(r, Close)
      ensures r.Done? ==> pass.Active? && Before(if pass.found.Missing? then PatchStarted else Settle)
      ensures r.Done? ==> pass.found.Missing? || pass.found.Found?
    {
      var notFoundById;
      r, notFoundById := FindInstance();
      if r.Crashed? {
        return;
      }
      if r.Failed? || (pass.found.Missing? && cfg.pool) {
        Arrive(Close);
        return Failed;
      }
      r := EnsureFinalizer();
    }

    /** reconcileNormal up to an instance: find it, or create it under the finalizer. */
    method FindOrCreateInstance() returns (r: Result)
      requires Before(Find)
      modifies `store, `nodeRef, `cloud, `log, `target, `base, `pending, `pass
      ensures old(log) <= log
      ensures After(r, Settle)
      ensures r.Done? ==> pass.found.Found?
    {
      r := FindUnderFinalizer();
      if r.Done? && pass.found.Missing? {
        r := CreateInstance();
      }
    }

    /** Lines 578-651: the last calls before the instance is recorded, then the recording itself. */
    method ObserveInstance() returns (r: Result)
      requires Before(Settle) && pass.found.Found?
      modifies `store, `nodeRef, `cloud, `log, `target, `base, `pending, `pass
      ensures old(log) <= log
      ensures After(r, if cfg.pool then Finish else DropRaw(FromNormal))
      ensures r.Done? ==> pass.found == old(pass.found)
    {
      var e := Call();
      if e.Crash? {
        Die();
        return Crashed;
      }
      SettleStep(base, e);
      if !e.ok {
        Arrive(Close);
        return Failed;
      }
      NoteInstance();
      return Done;
    }

    /** Makes sure that Spec.ProviderID and Spec.InstanceID are always set. */
    method NoteInstance()
      requires Valid() && pending.Some? && pass.Active? && pass.found.Found?
      requires target == Now().(pass := Observe(cfg, pass))
      modifies `pass, `pending
      ensures Before(if cfg.pool then Finish else DropRaw(FromNormal)) && pass.found == old(pass.found)
    {
      var failed := pass.mem.failed;
      if pass.found.state.Undefined? {
        failed := true;
      }
      pass := pass.(mem := pass.mem.(providerID := For(pass.found.id), instanceID := Some(pass.found.id),
                                     instanceState := Some(pass.found.state), failed := failed));
      Arrive(if cfg.pool then Finish else DropRaw(FromNormal));
    }

    /** Tags, load balancers and security groups. */
    method FinishInstance() returns (r: Result)
      requires Before(Finish)
      modifies `store, `nodeRef, `cloud, `log, `target, `base, `pending, `pass
      ensures old(log) <= log
      ensures After(r, Close)
    {
      var e := Call();
      if e.Crash? {
        Die();
        return Crashed;
      }
      Arrive(Close);
      return if e.ok then Done else Failed;
    }

    /** The bootstrap data goes once the instance is recorded; an instance found terminated is a failure. */
    method DropBootstrapData() returns (r: Result)
      requires Before(DropRaw(FromNormal)) && pass.found.Found?
      modifies `store, `nodeRef, `cloud, `log, `target, `base, `pending, `pass
      ensures old(log) <= log
      ensures After(r, Finish)
    {
      r := DeleteBootstrapData(FromNormal);
      if r != Done {
        return;
      }
      if pass.found.state.Terminated? {
        pass := pass.(mem := pass.mem.(failed := true));
      }
      Arrive(Finish);
    }

    /** reconcileNormal once the instance is settled: record it, drop bootstrap data, finish. */
    method RecordInstance() returns (r: Result)
      requires Before(Settle) && pass.found.Found?
      modifies `store, `nodeRef, `cloud, `log, `target, `base, `pending, `pass
      ensures old(log) <= log
      ensures After(r, Close)
    {
      r := ObserveInstance();
      if r != Done {
        return;
      }
      if !cfg.pool {
        r := DropBootstrapData();
        if r != Done {
          return;
        }
      }
      r := FinishInstance();
    }

    /** If the AWSMachine is in an error state, delete the secret and return early. */
    method ReconcileFailed() returns (r: Result)
      requires Before(DropRaw(FromFailed))
      modifies `store, `nodeRef, `cloud, `log, `target, `base, `pending, `pass
      ensures old(log) <= log
      ensures After(r, Close)
    {
      r := DeleteBootstrapData(FromFailed);
      if r.Done? {
        Arrive(Close);
      }
    }

    /** Infrastructure and bootstrap data have to be ready before anything happens. */
    method CheckReady() returns (r: Result, ready: bool)
      requires Before(Gate)
      modifies `store, `nodeRef, `cloud, `log, `target, `base, `pending, `pass
      ensures old(log) <= log
      ensures After(r, if ready then Find else Close)
    {
      var e := Call();
      if e.Crash? {
        Die();
        return Crashed, false;
      }
      if !e.ok || (!cfg.pool && !pass.dataRef) {
        Arrive(Close);
        return Done, false;
      }
      Arrive(Find);
      return Done, true;
    }

    /** reconcileNormal. */
    method ReconcileNormal() returns (r: Result)
      requires pass.Active? && !pass.mem.deleted && Before(FirstCall(cfg, pass.mem))
      modifies `store, `nodeRef, `cloud, `log, `target, `base, `pending, `pass
      ensures old(log) <= log
      ensures After(r, Close)
    {
      if pass.mem.failed {
        r := ReconcileFailed();
        return;
      }
      var ready;
      r, ready := CheckReady();
      if r != Done || !ready {
        return;
      }
      r := ReconcileInstance();
    }

    /** The rest of reconcileNormal: an instance, and what follows from it. */
    method ReconcileInstance() returns (r: Result)
      requires Before(Find)
      modifies `store, `nodeRef, `cloud, `log, `target, `base, `pending, `pass
      ensures old(log) <= log
      ensures After(r, Close)
    {
      r := FindOrCreateInstance();
      if r != Done {
        return;
      }
      r := RecordInstance();
    }

    // -------------------------------------------------------------------------------------------
    // reconcileDelete
    // -------------------------------------------------------------------------------------------

    /** The terminated case: release the dynamic host, persist that, drop the finalizer. */
    method ReleaseDedicatedHost() returns (r: Result)
      requires Before(ReleaseHost) && pass.mem.host.Some?
      modifies `store, `nodeRef, `cloud, `log, `target, `base, `pending, `pass
      ensures old(log) <= log
      ensures After(r, Close)
    {
      var e := Call();
      if e.Crash? {
        Die();
        return Crashed;
      }
      if e.released {
        cloud := cloud.(hosts := cloud.hosts - {pass.mem.host.value});
      }
      if !e.ok {
        Arrive(Close);
        return Failed;
      }
      pass := pass.(mem := pass.mem.(hostReleased := true));
      Arrive(PatchReleased);
      r := PersistRelease();
    }

    method PersistRelease() returns (r: Result)
      requires Before(PatchReleased)
      modifies `store, `nodeRef, `cloud, `log, `target, `base, `pending, `pass
      ensures old(log) <= log
      ensures After(r, Close)
    {
      r := PatchObject();
      if r.Crashed? {
        return;
      }
      if r.Done? {
        pass := pass.(mem := pass.mem.(finalizer := false));
      }
      Arrive(Close);
    }

    /** The default case: patch, then terminate. */
    method TerminateInstance() returns (r: Result)
      requires Before(PatchDeleting) && pass.found.Found?
      modifies `store, `nodeRef, `cloud, `log, `target, `base, `pending, `pass
      ensures old(log) <= log
      ensures After(r, Close)
    {
      r := PatchObject();
      if r.Crashed? {
        return;
      }
      if r.Failed? {
        Arrive(Close);
        return;
      }
      Arrive(Terminate);
      r := CallTerminate();
    }

    method CallTerminate() returns (r: Result)
      requires Before(Terminate) && pass.found.Found?
      modifies `store, `nodeRef, `cloud, `log, `target, `base, `pending, `pass
      ensures old(log) <= log
      ensures After(r, Close)
    {
      var e := Call();
      if e.Crash? {
        Die();
        return Crashed;
      }
      var i := pass.found.id;
      if e.accepted && i in cloud.instances && !IsDoomed(cloud.instances[i]) {
        cloud := cloud.(instances := cloud.instances[i := ShuttingDown]);
      }
      if !e.ok {
        Arrive(Close);
        return Failed;
      }
      Arrive(PatchDetaching);
      r := DetachInterfaces();
    }

    /** The core security groups are looked up and detached from given interfaces, if there are any. */
    method DetachInterfaces() returns (r: Result)
      requires Before(PatchDetaching) && pass.found.Found?
      modifies `store, `nodeRef, `cloud, `log, `target, `base, `pending, `pass
      ensures old(log) <= log
      ensures After(r, Close)
    {
      var e := Call();
      if e.Crash? {
        Die();
        return Crashed;
      }
      if e.Call? {
        Arrive(Close);
        return Failed;
      }
      if e.Patched? {
        store := PatchedStore(store, pass.before, pass.mem, e.o);
        if e.o.err {
          Arrive(Close);
          return Failed;
        }
      }
      Arrive(Cleanup);
      r := ReleaseAddresses();
    }

    /** Detaching the groups and releasing an elastic IP: any error ends the pass, as success does. */
    method ReleaseAddresses() returns (r: Result)
      requires Before(Cleanup) && pass.found.Found?
      modifies `store, `nodeRef, `cloud, `log, `target, `base, `pending, `pass
      ensures old(log) <= log
      ensures After(r, Close)
    {
      var e := Call();
      if e.Crash? {
        Die();
        return Crashed;
      }
      Arrive(Close);
      return if e.ok then Done else Failed;
    }

    /** The lookup of reconcileDelete; without an instance the finalizer is dropped. */
    method FindForDelete() returns (r: Result, gone: bool)
      requires Before(FindDeleted)
      modifies `store, `nodeRef, `cloud, `log, `target, `base, `pending, `pass
      ensures old(log) <= log
      ensures After(r, if gone then Close else Detach)
      ensures r.Done? && !gone ==> pass.found.Found?
    {
      var notFoundById;
      gone := false;
      r, notFoundById := FindInstance();
      if r.Crashed? {
        return;
      }
      if r.Failed? && !notFoundById {
        Arrive(Close);
        return;
      }
      if notFoundById || pass.found.Missing? {
        // The machine was never created or was deleted by some other entity.
        pass := pass.(found := Missing, mem := pass.mem.(finalizer := false));
        Arrive(Close);
        return Done, true;
      }
      Arrive(Detach);
    }

    /** The instance leaves the load balancers before anything else happens to it. */
    method DetachFromLoadBalancers() returns (r: Result)
      requires Before(Detach) && pass.found.Found?
      modifies `store, `nodeRef, `cloud, `log, `target, `base, `pending, `pass
      ensures old(log) <= log
      ensures !r.Done? ==> After(r, Close)
      ensures r.Done? ==>
                && Valid() && pending.Some? && pass == old(pass)
                && target == Now().(pass := AfterDetach(cfg, pass))
    {
      var e := Call();
      if e.Crash? {
        Die();
        return Crashed;
      }
      DetachStep(base, e);
      if !e.ok {
        Arrive(Close);
        return Failed;
      }
      return Done;
    }

    /** The terminated case: the host goes before the finalizer. */
    method FinishTerminated() returns (r: Result)
      requires Valid() && pending.Some? && pass.Active? && pass.found.Found? && pass.found.state.Terminated?
      requires target == Now().(pass := AfterDetach(cfg, pass))
      modifies `store, `nodeRef, `cloud, `log, `target, `base, `pending, `pass
      ensures old(log) <= log
      ensures After(r, Close)
    {
      if pass.mem.host.Some? && cfg.dynamicHost {
        Arrive(ReleaseHost);
        r := ReleaseDedicatedHost();
      } else {
        pass := pass.(mem := pass.mem.(finalizer := false));
        Arrive(Close);
        r := Done;
      }
    }

    /** Detach from load balancers, then act on the instance state. */
    method DetachAndTerminate() returns (r: Result)
      requires Before(Detach) && pass.found.Found?
      modifies `store, `nodeRef, `cloud, `log, `target, `base, `pending, `pass
      ensures old(log) <= log
      ensures After(r, Close)
    {
      r := DetachFromLoadBalancers();
      if r != Done {
        return;
      }
      match pass.found.state {
        case ShuttingDown => Arrive(Close);
        case Terminated => r := FinishTerminated();
        case _ =>
          Arrive(PatchDeleting);
          r := TerminateInstance();
      }
    }

    /** reconcileDelete. */
    method ReconcileDelete() returns (r: Result)
      requires pass.Active? && pass.mem.deleted && Before(FirstCall(cfg, pass.mem))
      modifies `store, `nodeRef, `cloud, `log, `target, `base, `pending, `pass
      ensures old(log) <= log
      ensures After(r, Close)
    {
      if !cfg.pool {
        r := DeleteBootstrapData(FromDelete);
        if r != Done {
          return;
        }
        Arrive(FindDeleted);
      }
      var gone;
      r, gone := FindForDelete();
      if r != Done || gone {
        return;
      }
      r := DetachAndTerminate();
    }

    // -------------------------------------------------------------------------------------------
    // Reconcile
    // -------------------------------------------------------------------------------------------

    /** machineScope.Close: the deferred patch; its error ends the pass as well. */
    method ClosePass()
      requires Before(Close)
      modifies `store, `nodeRef, `cloud, `log, `target, `base, `pending, `pass
      ensures old(log) <= log
      ensures Valid() && pending.None? && pass.Idle?
    {
      var r := PatchObject();
      if !r.Crashed? {
        pass := Idle;
        pending := None;
      }
    }

    /** Reads the object and creates the scope with its patch helper. */
    method StartPass(dataRef: bool)
      requires Valid() && pending.None? && pass.Idle? && store.Some?
      modifies `pass, `log, `target
      ensures pass.Active? && Before(FirstCall(cfg, pass.mem))
      ensures pass.mem == pass.before == store.value && old(log) <= log
    {
      Started(start, log, target, dataRef);
      var m := store.value;
      pass := Active(FirstCall(cfg, m), m, m, nodeRef, dataRef, NotLooked, false, None);
      log, target := log + [Begin(dataRef)], Now();
    }

    /**
     One pass: a fresh read, the reconcile function, the deferred patch.  Whatever the calls return
     and the environment does, the state afterwards is reached by a run of the step machine.
     */
    method Reconcile(dataRef: bool)
      requires Valid() && pending.None? && pass.Idle?
      modifies `store, `nodeRef, `cloud, `log, `target, `base, `pending, `pass
      ensures old(log) <= log
      ensures Valid() && pending.None? && pass.Idle?
      ensures Replay(start, log) == Some(Now())
    {
      if store.None? {
        return;
      }
      StartPass(dataRef);
      var r;
      if pass.mem.deleted {
        r := ReconcileDelete();
      } else {
        r := ReconcileNormal();
      }
      if !r.Crashed? {
        ClosePass();
      }
    }
  }

  // What the calls do at some points ---------------------------------------------------------------

  lemma SettleStep(s: State, e: Event)
    requires ControlShape(s) && s.pass.pc.Settle? && CallEnabled(s, e)
    ensures ApplyCall(s, e) == s.(pass := if e.ok then Observe(s.cfg, s.pass) else At(s.pass, Close))
  {}

  lemma DetachStep(s: State, e: Event)
    requires ControlShape(s) && s.pass.pc.Detach? && CallEnabled(s, e)
    ensures ApplyCall(s, e) == s.(pass := if e.ok then AfterDetach(s.cfg, s.pass) else At(s.pass, Close))
  {}

  function GivenUp(p: Pass, markFailed: bool): Pass
    requires p.Active?
  {
    p.(mem := p.mem.(failed := p.mem.failed || markFailed), pc := Close)
  }

  lemma GiveUpStep(s: State, e: Event)
    requires ControlShape(s) && (s.pass.pc.AllocateHost? || s.pass.pc.Launch?) && CallEnabled(s, e) && e.LaunchFailed?
    ensures ApplyCall(s, e) == s.(pass := GivenUp(s.pass, e.markFailed))
  {}

  lemma OutsideFrame(s: State, e: Event)
    requires EnvironmentEvent(e) && EnvironmentEnabled(s, e)
    ensures ApplyEnvironment(s, e).cfg == s.cfg && ApplyEnvironment(s, e).pass == s.pass
  {}

  lemma Disturbed(s0: State, log: seq<Event>, s: State, e: Event)
    requires Ran(s0, log, s) && EnvironmentEvent(e) && EnvironmentEnabled(s, e)
    ensures Ran(s0, log + [e], ApplyEnvironment(s, e))
  {
    assert Replay(s0, log) == Some(s);
    Extend(s0, log, s, e);
  }

  lemma Called(s0: State, log: seq<Event>, s: State, e: Event)
    requires Ran(s0, log, s) && s.pass.Active? && !EnvironmentEvent(e) && (e.Crash? || (ControlShape(s) && CallEnabled(s, e)))
    ensures Ran(s0, log + [e], if e.Crash? then s.(pass := Idle) else ApplyCall(s, e))
  {
    assert Replay(s0, log) == Some(s);
    Extend(s0, log, s, e);
  }

  lemma Started(s0: State, log: seq<Event>, s: State, dataRef: bool)
    requires Ran(s0, log, s) && s.pass.Idle? && s.store.Some?
    ensures Ran(s0, log + [Begin(dataRef)], ApplyBegin(s, dataRef))
  {
    assert Replay(s0, log) == Some(s);
    Extend(s0, log, s, Begin(dataRef));
  }
}
