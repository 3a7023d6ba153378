/**
 The AWSMachine controller as a step machine.

 One reconcile pass of one AWSMachine is cut at every call that leaves the process (Kubernetes API,
 EC2, secret backend, object store).  Each call is one step, its outcome is part of the event, and
 anything the environment does (a user's deletion, EC2 state changes, a node joining) may happen
 between two steps.  A crash may replace any step.

 controllers/awsmachine_controller.go: Reconcile, reconcileNormal, reconcileDelete, findInstance,
 createInstance, resolveUserData, cloudInitUserData, deleteBootstrapData and its two helpers.
 */
module MachineProtocol {
  import opened Basics

  type InstanceId = string
  type HostId = string

  // ---------------------------------------------------------------------------------------------
  // EC2 instances
  // ---------------------------------------------------------------------------------------------

  datatype InstanceState =
    | Pending
    | Running
    | ShuttingDown
    | Terminated
    | Stopping
    | Stopped
    | Undefined(name: string)

  /** InstanceRunningStates: also the state filter of the tag lookup. */
  predicate IsRunning(st: InstanceState) {
    st.Pending? || st.Running?
  }

  /** InstanceOperationalStates. */
  predicate IsOperational(st: InstanceState) {
    IsRunning(st) || st.Stopping? || st.Stopped?
  }

  /** The instance can never serve again: EC2 only moves it towards removal. */
  predicate IsDoomed(st: InstanceState) {
    st.ShuttingDown? || st.Terminated?
  }

  /** The EC2 lifecycle graph: termination is never undone. */
  predicate LifecycleAllows(from: InstanceState, to: InstanceState) {
    match from
    case ShuttingDown => to.Terminated?
    case Terminated => false
    case _ => true
  }

  // ---------------------------------------------------------------------------------------------
  // The AWSMachine object and the per-machine settings
  // ---------------------------------------------------------------------------------------------

  /** Spec.ProviderID, already parsed; ProviderIds.dfy relates it to the string. */
  datatype ProviderID = Empty | For(id: InstanceId) | Malformed

  datatype AWSMachine = AWSMachine(
    // metadata
    finalizer: bool,
    deleted: bool,                      // the deletion timestamp is set
    // spec
    providerID: ProviderID,
    instanceID: Option<InstanceId>,
    secretPrefix: string,
    secretCount: nat,
    // status
    instanceState: Option<InstanceState>,
    failed: bool,                       // FailureReason or FailureMessage set
    host: Option<HostId>,               // Status.DedicatedHost.ID
    hostReleased: bool                  // DedicatedHostReleaseCondition is true
  )

  datatype IgnitionStorage = ClusterObjectStore | UnencryptedUserData | UnsupportedStorage

  /** UseSecretsManager and UseIgnition exclude each other, so the format is one choice. */
  datatype Bootstrap =
    | Secrets(backendValid: bool)       // cloud-init user data kept in a secret backend
    | Plain                             // cloud-init with InsecureSkipSecretsManager
    | Ignition(storage: IgnitionStorage)

  datatype Config = Config(
    pool: bool,                         // IsMachinePoolMachine
    bootstrap: Bootstrap,
    objectStore: bool,                  // objectStoreScope != nil
    dynamicHost: bool                   // Spec.DynamicHostAllocation != nil
  )

  predicate UsesSecrets(cfg: Config) {
    cfg.bootstrap.Secrets?
  }

  predicate UsesObjectStore(cfg: Config) {
    cfg.bootstrap == Ignition(ClusterObjectStore)
  }

  // ---------------------------------------------------------------------------------------------
  // World, pass and system state
  // ---------------------------------------------------------------------------------------------

  type SecretEntry = (string, nat)

  datatype Cloud = Cloud(
    instances: map<InstanceId, InstanceState>,  // instances carrying this machine's tags
    created: set<InstanceId>,                   // every instance this controller ever launched
    secrets: set<SecretEntry>,
    bucketObject: bool,                               // bootstrap object in the object store
    hosts: set<HostId>                          // dedicated hosts allocated for the machine
  )

  datatype Lookup = NotLooked | Missing | Found(id: InstanceId, state: InstanceState)

  /** Who called deleteBootstrapData. */
  datatype Caller = FromFailed | FromNormal | FromDelete

  /** The call the pass makes next. */
  datatype PC =
    | Gate                    // cluster infrastructure and bootstrap reference checks
    | Find
    | PatchFinalizer
    | PatchStarted
    | RawData
    | CreateSecrets
    | PatchSecrets
    | UserData
    | CreateObject
    | AllocateHost
    | Launch
    | Settle                  // elastic IP and EventBridge calls before the provider ID is set
    | Finish                  // tags, load balancers, security groups
    | DropRaw(caller: Caller)
    | DropSecrets(caller: Caller)
    | DropObject(caller: Caller)
    | FindDeleted
    | Detach                  // load-balancer detachment
    | ReleaseHost
    | PatchReleased
    | PatchDeleting
    | Terminate
    | PatchDetaching          // patch before the security groups of given interfaces are detached
    | Cleanup                 // detaching them, and releasing an elastic IP
    | Close                   // the deferred patch

  datatype Pass =
    | Idle
    | Active(
        pc: PC,
        mem: AWSMachine,               // the in-memory object
        before: AWSMachine,            // the patch helper's copy, taken when the scope was created
        nodeRef: bool,                 // Machine.Status.NodeRef as read
        dataRef: bool,                 // Machine.Spec.Bootstrap.DataSecretName != nil
        found: Lookup,
        secretErr: bool,               // secretSvc.Create reported an error
        userData: Option<SecretEntry>  // prefix and count the user data refers to
      )

  datatype State = State(
    cfg: Config,
    store: Option<AWSMachine>,         // the persisted object
    nodeRef: bool,
    cloud: Cloud,
    pass: Pass
  )

  // ---------------------------------------------------------------------------------------------
  // Events
  // ---------------------------------------------------------------------------------------------

  /** PatchObject sends metadata and spec in one request, status in another; either may be lost. */
  datatype PatchOutcome = PatchOutcome(spec: bool, status: bool, err: bool)

  datatype LaunchResult = LaunchOk | ErrorRecorded | ErrorUnrecorded

  datatype Event =
    // controller
    | Begin(dataRef: bool)
    | Tick                                            // a purely local decision
    | Call(ok: bool)                                  // a call without tracked effect
    | LookupFailed
    | LookupDone(result: Lookup)
    | Patched(o: PatchOutcome)
    | SecretsCreated(prefix: string, chunks: nat, err: bool)
    | SecretsDeleted(gone: set<nat>, ok: bool)
    | ObjectCreated(stored: bool, ok: bool)
    | ObjectDeleted(removed: bool, ok: bool)
    | HostAllocated(host: HostId, ok: bool)
    | HostReleased(released: bool, ok: bool)
    | Launched(id: InstanceId, state: InstanceState, launch: LaunchResult)
    | LaunchFailed(markFailed: bool)
    | TerminateCalled(accepted: bool, ok: bool)
    | Crash
    // environment
    | UserDelete
    | NodeJoins
    | InstanceMoves(moved: InstanceId, to: InstanceState)
    | InstanceVanishes(vanished: InstanceId)

  // ---------------------------------------------------------------------------------------------
  // PatchObject: a merge patch of what changed since the scope was created
  // ---------------------------------------------------------------------------------------------

  function Merge<T(==)>(before: T, mem: T, stored: T): T {
    if mem != before then mem else stored
  }

  function MergeSpec(before: AWSMachine, mem: AWSMachine, st: AWSMachine): AWSMachine {
    st.(finalizer := Merge(before.finalizer, mem.finalizer, st.finalizer),
        providerID := Merge(before.providerID, mem.providerID, st.providerID),
        instanceID := Merge(before.instanceID, mem.instanceID, st.instanceID),
        secretPrefix := Merge(before.secretPrefix, mem.secretPrefix, st.secretPrefix),
        secretCount := Merge(before.secretCount, mem.secretCount, st.secretCount))
  }

  function MergeStatus(before: AWSMachine, mem: AWSMachine, st: AWSMachine): AWSMachine {
    st.(instanceState := Merge(before.instanceState, mem.instanceState, st.instanceState),
        failed := Merge(before.failed, mem.failed, st.failed),
        host := Merge(before.host, mem.host, st.host),
        hostReleased := Merge(before.hostReleased, mem.hostReleased, st.hostReleased))
  }

  /** The API server removes an object whose deletion timestamp is set once no finalizer is left. */
  function Collect(st: AWSMachine): Option<AWSMachine> {
    if st.deleted && !st.finalizer then None else Some(st)
  }

  function PatchedStore(store: Option<AWSMachine>, before: AWSMachine, mem: AWSMachine, o: PatchOutcome)
    : Option<AWSMachine>
  {
    if store.None? then None else
    var st := if o.spec then MergeSpec(before, mem, store.value) else store.value;
    if Collect(st).None? then None else
    Some(if o.status then MergeStatus(before, mem, st) else st)
  }

  predicate PatchPossible(store: Option<AWSMachine>, o: PatchOutcome) {
    && (!o.err ==> o.spec && o.status)
    && (store.None? ==> o.err && !o.spec && !o.status)
  }

  // ---------------------------------------------------------------------------------------------
  // findInstance
  // ---------------------------------------------------------------------------------------------

  /** What a successful lookup may return; the tag lookup sees pending and running instances only. */
  predicate LookupPossible(cloud: Cloud, pid: ProviderID, r: Lookup) {
    match pid
    case Malformed => false
    case Empty =>
      (match r
       case NotLooked => false
       case Missing => forall i | i in cloud.instances :: !IsRunning(cloud.instances[i])
       case Found(id, st) => id in cloud.instances && cloud.instances[id] == st && IsRunning(st))
    case For(i) =>
      (match r
       case NotLooked => false
       case Missing => i !in cloud.instances
       case Found(id, st) => id == i && i in cloud.instances && cloud.instances[i] == st)
  }

  // ---------------------------------------------------------------------------------------------
  // Local decisions
  // ---------------------------------------------------------------------------------------------

  /** Bootstrap data is still needed: lines 750-753 and 961-964. */
  predicate StillNeeded(p: Pass)
    requires p.Active?
  {
    && !p.mem.failed
    && p.mem.instanceState.Some? && IsOperational(p.mem.instanceState.value)
    && !p.nodeRef
    && !p.mem.deleted
  }

  datatype SecretDecision = NoSecret | BrokenRecord | KeepSecret | DeleteSecret

  function DecideSecrets(cfg: Config, p: Pass): SecretDecision
    requires p.Active?
  {
    if !UsesSecrets(cfg) then NoSecret
    else if !cfg.bootstrap.backendValid then BrokenRecord
    else if p.mem.secretPrefix == "" then NoSecret
    else if p.mem.secretCount == 0 then BrokenRecord
    else if StillNeeded(p) then KeepSecret
    else DeleteSecret
  }

  /** deleteIgnitionBootstrapDataFromS3 gets as far as its second read of the bootstrap data. */
  predicate ObjectStepNeeded(cfg: Config, p: Pass)
    requires p.Active?
  {
    cfg.objectStore && !StillNeeded(p) && p.dataRef
  }

  function Entries(prefix: string, idx: set<nat>): set<SecretEntry> {
    set i | i in idx :: (prefix, i)
  }

  function Below(n: nat): (r: set<nat>)
    ensures forall i: nat :: i in r <==> i < n
  {
    if n == 0 then {} else Below(n - 1) + {n - 1}
  }

  function At(p: Pass, pc: PC): Pass
    requires p.Active?
  {
    p.(pc := pc)
  }

  function FirstCall(cfg: Config, m: AWSMachine): PC {
    if m.deleted then (if cfg.pool then FindDeleted else DropRaw(FromDelete))
    else if m.failed then DropRaw(FromFailed)
    else Gate
  }

  /** After the instance lookup: register the finalizer if it is missing. */
  function AfterFind(p: Pass): Pass
    requires p.Active?
  {
    if p.mem.finalizer then AfterFinalizer(p)
    else p.(mem := p.mem.(finalizer := true), pc := PatchFinalizer)
  }

  function AfterFinalizer(p: Pass): Pass
    requires p.Active?
  {
    At(p, if p.found.Missing? then PatchStarted else Settle)
  }

  function AfterUserData(cfg: Config, p: Pass): Pass
    requires p.Active?
  {
    At(p, if cfg.dynamicHost then AllocateHost else Launch)
  }

  /** Lines 602-651: record the instance and its state, then drop bootstrap data. */
  function Observe(cfg: Config, p: Pass): Pass
    requires p.Active? && p.found.Found?
  {
    p.(mem := p.mem.(providerID := For(p.found.id),
                     instanceID := Some(p.found.id),
                     instanceState := Some(p.found.state),
                     failed := p.mem.failed || p.found.state.Undefined?),
       pc := if cfg.pool then Finish else DropRaw(FromNormal))
  }

  /** Where deleteBootstrapData returns to. */
  function Return(p: Pass, caller: Caller): Pass
    requires p.Active?
  {
    match caller
    case FromFailed => At(p, Close)
    case FromDelete => At(p, FindDeleted)
    case FromNormal =>
      p.(mem := if p.found.Found? && p.found.state.Terminated? then p.mem.(failed := true) else p.mem,
         pc := Finish)
  }

  /** Lines 361-461: what reconcileDelete does with the instance it found. */
  function AfterDetach(cfg: Config, p: Pass): Pass
    requires p.Active? && p.found.Found?
  {
    match p.found.state
    case ShuttingDown => At(p, Close)
    case Terminated =>
      if p.mem.host.Some? && cfg.dynamicHost then At(p, ReleaseHost)
      else p.(mem := p.mem.(finalizer := false), pc := Close)
    case _ => At(p, PatchDeleting)
  }

  // ---------------------------------------------------------------------------------------------
  // Steps
  // ---------------------------------------------------------------------------------------------

  predicate EnvironmentEvent(e: Event) {
    e.UserDelete? || e.NodeJoins? || e.InstanceMoves? || e.InstanceVanishes?
  }

  predicate EnvironmentEnabled(s: State, e: Event)
    requires EnvironmentEvent(e)
  {
    match e
    case UserDelete => s.store.Some?
    case NodeJoins => true
    case InstanceMoves(i, to) =>
      i in s.cloud.instances && LifecycleAllows(s.cloud.instances[i], to)
    case InstanceVanishes(i) =>
      i in s.cloud.instances && s.cloud.instances[i].Terminated?
  }

  function ApplyEnvironment(s: State, e: Event): State
    requires EnvironmentEvent(e) && EnvironmentEnabled(s, e)
  {
    match e
    case UserDelete => s.(store := Collect(s.store.value.(deleted := true)))
    case NodeJoins => s.(nodeRef := true)
    case InstanceMoves(i, to) => s.(cloud := s.cloud.(instances := s.cloud.instances[i := to]))
    case InstanceVanishes(i) => s.(cloud := s.cloud.(instances := s.cloud.instances - {i}))
  }

  /** The outcomes the call at the pass's program point may have. */
  predicate CallEnabled(s: State, e: Event)
    requires s.pass.Active?
  {
    var p := s.pass;
    match p.pc
    case Gate => e.Call?
    case Find =>
      e.LookupFailed? || (e.LookupDone? && LookupPossible(s.cloud, p.mem.providerID, e.result))
    case FindDeleted =>
      e.LookupFailed? || (e.LookupDone? && LookupPossible(s.cloud, p.mem.providerID, e.result))
    case PatchFinalizer => e.Patched? && PatchPossible(s.store, e.o)
    case PatchStarted => e.Tick? || (e.Patched? && PatchPossible(s.store, e.o))
    case RawData => e.Call?
    case CreateSecrets =>
      || e == Call(false)
      || (&& e.SecretsCreated?
          && s.cfg.bootstrap == Secrets(true)
          && e.prefix != ""
          && (p.mem.secretPrefix != "" ==> e.prefix == p.mem.secretPrefix))
    case PatchSecrets => e.Patched? && PatchPossible(s.store, e.o)
    case UserData => e.Call?
    case CreateObject =>
      || e == Call(false)
      || (e.ObjectCreated? && s.cfg.objectStore && (e.ok ==> e.stored))
    case AllocateHost =>
      || e.LaunchFailed?
      || (e.Tick? && p.mem.host.Some?)
      || (e.HostAllocated? && p.mem.host.None? && e.host !in s.cloud.hosts)
    case Launch =>
      || e.LaunchFailed?
      || (e.Launched? && e.id !in s.cloud.created && e.id !in s.cloud.instances && IsRunning(e.state))
    case Settle => e.Call?
    case Finish => e.Call?
    case DropRaw(_) => e.Call?
    case DropSecrets(_) =>
      if DecideSecrets(s.cfg, p).DeleteSecret?
      then e.SecretsDeleted? && (e.ok ==> Below(p.mem.secretCount) <= e.gone)
      else e.Tick?
    case DropObject(_) =>
      if ObjectStepNeeded(s.cfg, p)
      then e.ObjectDeleted? && (e.ok && UsesObjectStore(s.cfg) ==> e.removed)
      else e.Tick?
    case Detach => e.Call?
    case ReleaseHost => e.HostReleased? && (e.ok ==> e.released)
    case PatchReleased => e.Patched? && PatchPossible(s.store, e.o)
    case PatchDeleting => e.Patched? && PatchPossible(s.store, e.o)
    case Terminate => e.TerminateCalled? && (e.ok ==> e.accepted)
    case PatchDetaching => e.Tick? || e == Call(false) || (e.Patched? && PatchPossible(s.store, e.o))
    case Cleanup => e.Call?
    case Close => e.Patched? && PatchPossible(s.store, e.o)
  }

  predicate Enabled(s: State, e: Event) {
    if EnvironmentEvent(e) then EnvironmentEnabled(s, e)
    else if s.pass.Idle? then e.Begin? && s.store.Some?
    else e.Crash? || (ControlShape(s) && CallEnabled(s, e))
  }

  /** Program points that dereference the instance are only reached with one. */
  predicate ControlShape(s: State) {
    && s.pass.Active?
    && (s.pass.pc.Settle? || s.pass.pc.Detach? || s.pass.pc.Terminate? || s.pass.pc.Cleanup? ==> s.pass.found.Found?)
    && (s.pass.pc.ReleaseHost? ==> s.pass.mem.host.Some?)
  }

  predicate IsLookup(pc: PC) {
    pc.Gate? || pc.Find? || pc.PatchFinalizer?
  }

  /** reconcileNormal up to the finalizer patch. */
  function StepLookup(s: State, e: Event): State
    requires s.pass.Active? && CallEnabled(s, e)
    requires IsLookup(s.pass.pc)
  {
    var p := s.pass;
    match p.pc
    case Gate =>
      s.(pass := At(p, if e.ok && (s.cfg.pool || p.dataRef) then Find else Close))
    case Find =>
      if e.LookupFailed? then s.(pass := At(p, Close))
      else if e.result.Missing? && p.mem.providerID.For? then s.(pass := At(p, Close))
      else if e.result.Missing? && s.cfg.pool then s.(pass := p.(found := Missing, pc := Close))
      else s.(pass := AfterFind(p.(found := e.result)))
    case PatchFinalizer =>
      var t := s.(store := PatchedStore(s.store, p.before, p.mem, e.o));
      t.(pass := if e.o.err then At(p, Close) else AfterFinalizer(p))
  }

  predicate IsUserData(pc: PC) {
    pc.PatchStarted? || pc.RawData? || pc.CreateSecrets? || pc.PatchSecrets? || pc.UserData? || pc.CreateObject?
  }

  /** createInstance: user data. */
  function StepUserData(s: State, e: Event): State
    requires s.pass.Active? && CallEnabled(s, e)
    requires IsUserData(s.pass.pc)
  {
    var p := s.pass;
    match p.pc
    case PatchStarted =>
      if e.Tick? then s.(pass := At(p, RawData)) else
      var t := s.(store := PatchedStore(s.store, p.before, p.mem, e.o));
      t.(pass := At(p, if e.o.err then Close else RawData))
    case RawData =>
      if !e.ok then s.(pass := At(p, Close)) else
      (match s.cfg.bootstrap
       case Secrets(_) => s.(pass := At(p, CreateSecrets))
       case Plain => s.(pass := AfterUserData(s.cfg, p))
       case Ignition(ClusterObjectStore) => s.(pass := At(p, CreateObject))
       case Ignition(UnencryptedUserData) => s.(pass := AfterUserData(s.cfg, p))
       case Ignition(UnsupportedStorage) => s.(pass := At(p, Close)))
    case CreateSecrets =>
      if e.Call? then s.(pass := At(p, Close)) else
      s.(cloud := s.cloud.(secrets := s.cloud.secrets + Entries(e.prefix, Below(e.chunks))),
         pass := p.(mem := if e.chunks > 0
                           then p.mem.(secretPrefix := e.prefix, secretCount := e.chunks)
                           else p.mem,
                    secretErr := e.err,
                    pc := PatchSecrets))
    case PatchSecrets =>
      var t := s.(store := PatchedStore(s.store, p.before, p.mem, e.o));
      t.(pass := At(p, if e.o.err || p.secretErr then Close else UserData))
    case UserData =>
      if !e.ok then s.(pass := At(p, Close))
      else s.(pass := AfterUserData(s.cfg, p.(userData := Some((p.mem.secretPrefix, p.mem.secretCount)))))
    case CreateObject =>
      if e.Call? then s.(pass := At(p, Close)) else
      s.(cloud := s.cloud.(bucketObject := s.cloud.bucketObject || e.stored),
         pass := if e.ok then AfterUserData(s.cfg, p) else At(p, Close))
  }

  /** ec2svc.CreateInstance: dedicated host and RunInstances. */
  function StepLaunch(s: State, e: Event): State
    requires s.pass.Active? && CallEnabled(s, e)
    requires s.pass.pc.AllocateHost? || s.pass.pc.Launch?
  {
    var p := s.pass;
    if e.LaunchFailed? then
      s.(pass := p.(mem := p.mem.(failed := p.mem.failed || e.markFailed), pc := Close))
    else
    match p.pc
    case AllocateHost =>
      if e.Tick? then s.(pass := At(p, Launch)) else
      s.(cloud := s.cloud.(hosts := s.cloud.hosts + {e.host}),
         pass := if e.ok then p.(mem := p.mem.(host := Some(e.host)), pc := Launch) else At(p, Close))
    case Launch =>
      var recorded := p.(mem := p.mem.(providerID := For(e.id), instanceID := Some(e.id)));
      s.(cloud := s.cloud.(instances := s.cloud.instances[e.id := e.state],
                           created := s.cloud.created + {e.id}),
         pass := match e.launch
                 case LaunchOk => recorded.(found := Found(e.id, e.state), pc := Settle)
                 case ErrorRecorded => At(recorded, Close)
                 case ErrorUnrecorded => At(p, Close))
  }

  /** deleteBootstrapData, for any of its callers. */
  function StepDrop(s: State, e: Event): State
    requires s.pass.Active? && CallEnabled(s, e)
    requires s.pass.pc.DropRaw? || s.pass.pc.DropSecrets? || s.pass.pc.DropObject?
  {
    var p := s.pass;
    match p.pc
    case DropRaw(k) =>
      s.(pass := At(p, if p.dataRef && !e.ok then Close else DropSecrets(k)))
    case DropSecrets(k) =>
      (match DecideSecrets(s.cfg, p)
       case BrokenRecord => s.(pass := At(p, Close))
       case NoSecret => s.(pass := At(p, DropObject(k)))
       case KeepSecret => s.(pass := At(p, DropObject(k)))
       case DeleteSecret =>
         var gone := Entries(p.mem.secretPrefix, e.gone * Below(p.mem.secretCount));
         s.(cloud := s.cloud.(secrets := s.cloud.secrets - gone),
            pass := if e.ok
                    then p.(mem := p.mem.(secretPrefix := "", secretCount := 0), pc := DropObject(k))
                    else At(p, Close)))
    case DropObject(k) =>
      if e.Tick? then s.(pass := Return(p, k)) else
      s.(cloud := s.cloud.(bucketObject := s.cloud.bucketObject && !(e.removed && UsesObjectStore(s.cfg))),
         pass := if e.ok then Return(p, k) else At(p, Close))
  }

  /** Program points of reconcileDelete past deleteBootstrapData. */
  predicate IsDeleting(pc: PC) {
    || pc.FindDeleted? || pc.Detach? || pc.ReleaseHost? || pc.PatchReleased? || pc.PatchDeleting?
    || pc.Terminate? || pc.PatchDetaching? || pc.Cleanup?
  }

  /** The rest of reconcileDelete. */
  function StepDelete(s: State, e: Event): State
    requires ControlShape(s) && CallEnabled(s, e)
    requires IsDeleting(s.pass.pc)
  {
    var p := s.pass;
    match p.pc
    case FindDeleted =>
      if e.LookupFailed? then s.(pass := At(p, Close))
      else if e.result.Missing? then
        s.(pass := p.(found := Missing, mem := p.mem.(finalizer := false), pc := Close))
      else s.(pass := p.(found := e.result, pc := Detach))
    case Detach =>
      s.(pass := if e.ok then AfterDetach(s.cfg, p) else At(p, Close))
    case ReleaseHost =>
      s.(cloud := if e.released then s.cloud.(hosts := s.cloud.hosts - {p.mem.host.value}) else s.cloud,
         pass := if e.ok then p.(mem := p.mem.(hostReleased := true), pc := PatchReleased) else At(p, Close))
    case PatchReleased =>
      var t := s.(store := PatchedStore(s.store, p.before, p.mem, e.o));
      t.(pass := p.(mem := if e.o.err then p.mem else p.mem.(finalizer := false), pc := Close))
    case PatchDeleting =>
      var t := s.(store := PatchedStore(s.store, p.before, p.mem, e.o));
      t.(pass := At(p, if e.o.err then Close else Terminate))
    case Terminate =>
      var i := p.found.id;
      var hit := e.accepted && i in s.cloud.instances && !IsDoomed(s.cloud.instances[i]);
      s.(cloud := if hit then s.cloud.(instances := s.cloud.instances[i := ShuttingDown]) else s.cloud,
         pass := At(p, if e.ok then PatchDetaching else Close))
    case PatchDetaching =>
      if e.Tick? then s.(pass := At(p, Cleanup))
      else if e.Call? then s.(pass := At(p, Close)) else
      var t := s.(store := PatchedStore(s.store, p.before, p.mem, e.o));
      t.(pass := At(p, if e.o.err then Close else Cleanup))
    case Cleanup => s.(pass := At(p, Close))
  }

  function ApplyCall(s: State, e: Event): State
    requires ControlShape(s) && CallEnabled(s, e)
  {
    var p := s.pass;
    match p.pc
    case Gate => StepLookup(s, e)
    case Find => StepLookup(s, e)
    case PatchFinalizer => StepLookup(s, e)
    case PatchStarted => StepUserData(s, e)
    case RawData => StepUserData(s, e)
    case CreateSecrets => StepUserData(s, e)
    case PatchSecrets => StepUserData(s, e)
    case UserData => StepUserData(s, e)
    case CreateObject => StepUserData(s, e)
    case AllocateHost => StepLaunch(s, e)
    case Launch => StepLaunch(s, e)
    case Settle => s.(pass := if e.ok then Observe(s.cfg, p) else At(p, Close))
    case Finish => s.(pass := At(p, Close))
    case DropRaw(_) => StepDrop(s, e)
    case DropSecrets(_) => StepDrop(s, e)
    case DropObject(_) => StepDrop(s, e)
    case FindDeleted => StepDelete(s, e)
    case Detach => StepDelete(s, e)
    case ReleaseHost => StepDelete(s, e)
    case PatchReleased => StepDelete(s, e)
    case PatchDeleting => StepDelete(s, e)
    case Terminate => StepDelete(s, e)
    case PatchDetaching => StepDelete(s, e)
    case Cleanup => StepDelete(s, e)
    case Close => s.(store := PatchedStore(s.store, p.before, p.mem, e.o), pass := Idle)
  }

  /** A pass starts with a fresh read; the patch helper remembers what was read. */
  function ApplyBegin(s: State, dataRef: bool): State
    requires s.store.Some?
  {
    var m := s.store.value;
    s.(pass := Active(FirstCall(s.cfg, m), m, m, s.nodeRef, dataRef, NotLooked, false, None))
  }

  function Apply(s: State, e: Event): State
    requires Enabled(s, e)
  {
    if EnvironmentEvent(e) then ApplyEnvironment(s, e)
    else if s.pass.Idle? then ApplyBegin(s, e.dataRef)
    else if e.Crash? then s.(pass := Idle)
    else ApplyCall(s, e)
  }

  // ---------------------------------------------------------------------------------------------
  // Runs
  // ---------------------------------------------------------------------------------------------

  const NewMachine := AWSMachine(false, false, Empty, None, "", 0, None, false, None, false)

  /** A freshly created AWSMachine.  Pool machines are created with the instance of their group. */
  predicate Init(s: State) {
    && s.pass.Idle?
    && s.cloud.created == {} && s.cloud.secrets == {} && s.cloud.hosts == {} && !s.cloud.bucketObject
    && (if s.cfg.pool
        then s.store.Some? && s.store.value == NewMachine.(providerID := s.store.value.providerID)
        else s.store == Some(NewMachine) && s.cloud.instances == map[])
  }

  /** The state after a sequence of events, if every one of them was possible. */
  function Replay(s0: State, events: seq<Event>): Option<State> {
    if events == [] then Some(s0) else
    var last := |events| - 1;
    match Replay(s0, events[..last])
    case None => None
    case Some(s) => if Enabled(s, events[last]) then Some(Apply(s, events[last])) else None
  }

  /** Extends a run by one event. */
  lemma Extend(s0: State, events: seq<Event>, s: State, e: Event)
    requires Replay(s0, events) == Some(s) && Enabled(s, e)
    ensures Replay(s0, events + [e]) == Some(Apply(s, e))
  {
    var longer := events + [e];
    assert longer[..|longer| - 1] == events;
  }

  /** One run after another is a run. */
  lemma {:induction false} ReplayConcat(s0: State, first: seq<Event>, second: seq<Event>)
    requires Replay(s0, first).Some? && Replay(Replay(s0, first).value, second).Some?
    ensures Replay(s0, first + second) == Replay(Replay(s0, first).value, second)
  {
    if second == [] {
      assert first + second == first;
    } else {
      var last := |second| - 1;
      ReplayConcat(s0, first, second[..last]);
      assert (first + second)[..|first| + last] == first + second[..last];
      assert (first + second)[|first| + last] == second[last];
    }
  }

  ghost predicate Reachable(s: State) {
    exists s0, events :: Init(s0) && Replay(s0, events) == Some(s)
  }

  lemma ReachableFrom(s: State, events: seq<Event>)
    requires Reachable(s) && Replay(s, events).Some?
    ensures Reachable(Replay(s, events).value)
  {
    var s0, first :| Init(s0) && Replay(s0, first) == Some(s);
    ReplayConcat(s0, first, events);
  }

  lemma ReachableStep(s: State, e: Event)
    requires Reachable(s) && Enabled(s, e)
    ensures Reachable(Apply(s, e))
  {
    var s0, first :| Init(s0) && Replay(s0, first) == Some(s);
    Extend(s0, first, s, e);
  }
}
