/**
 What a single pass can do from a state between passes, if nobody interferes: exactly when it can launch an instance, and
 exactly when it can remove the object.
 */
module MachinePasses {
  import opened Basics
  import opened MachineProtocol
  import opened MachineInvariant
  import opened MachineFrames
  import opened MachineSafety
  import opened MachineDeletion

  /** One pass without crash and without outside events. */
  predicate OwnPass(events: seq<Event>) {
    forall k | 0 <= k < |events| :: !EnvironmentEvent(events[k]) && !events[k].Crash? && (events[k].Begin? <==> k == 0)
  }

  predicate NoLaunch(events: seq<Event>) {
    forall k | 0 <= k < |events| :: !events[k].Launched?
  }

  /** An event of a pass under way. */
  predicate Inside(e: Event) {
    !EnvironmentEvent(e) && !e.Crash? && !e.Begin?
  }

  /** The pass that leads from s to t. */
  ghost predicate Leads(s: State, events: seq<Event>, t: State) {
    events != [] && OwnPass(events) && NoLaunch(events) && Replay(s, events) == Some(t)
  }

  const Delivered := PatchOutcome(true, true, false)

  /** Every patch is delivered, and reported as such. */
  predicate Smooth(e: Event) {
    !e.Crash? && (e.Patched? ==> e.o == Delivered)
  }

  predicate AllSmooth(events: seq<Event>) {
    forall k | 0 <= k < |events| :: Smooth(events[k])
  }

  ghost predicate Smoothly(s: State, events: seq<Event>, t: State) {
    Leads(s, events, t) && AllSmooth(events)
  }

  /** A pass from s gets to t. */
  ghost predicate Gets(s: State, t: State) {
    exists events :: Smoothly(s, events, t)
  }

  lemma Starts(s: State, dataRef: bool)
    requires s.pass.Idle? && s.store.Some?
    ensures Gets(s, ApplyBegin(s, dataRef))
  {
    assert Replay(s, []) == Some(s);
    Extend(s, [], s, Begin(dataRef));
    assert Smoothly(s, [] + [Begin(dataRef)], ApplyBegin(s, dataRef));
  }

  /** The event leads from t to u. */
  predicate Moves(t: State, e: Event, u: State) {
    Enabled(t, e) && Apply(t, e) == u
  }

  lemma Goes(s: State, t: State, e: Event, u: State)
    requires Gets(s, t) && Inside(e) && Smooth(e) && !e.Launched? && Moves(t, e, u)
    ensures Gets(s, u)
  {
    var events :| Smoothly(s, events, t);
    Extend(s, events, t, e);
    assert Smoothly(s, events + [e], u);
  }

  // ---------------------------------------------------------------------------------------------
  // Launching
  // ---------------------------------------------------------------------------------------------

  /** The tag lookup has nothing to see. */
  predicate NothingVisible(s: State) {
    forall i | i in s.cloud.instances :: !IsRunning(s.cloud.instances[i])
  }

  /** User data can be produced at all. */
  predicate CanBootstrap(cfg: Config) {
    match cfg.bootstrap
    case Secrets(valid) => valid
    case Plain => true
    case Ignition(ClusterObjectStore) => cfg.objectStore
    case Ignition(UnencryptedUserData) => true
    case Ignition(UnsupportedStorage) => false
  }

  predicate LaunchPossible(s: State) {
    && s.store.Some? && !s.cfg.pool && CanBootstrap(s.cfg)
    && !s.store.value.deleted && !s.store.value.failed && s.store.value.providerID.Empty?
    && NothingVisible(s)
  }

  ghost predicate CanLaunch(s: State) {
    exists events, t, e: Event :: Leads(s, events, t) && e.Launched? && Enabled(t, e)
  }

  // A pass that gets to the launch ---------------------------------------------------------------

  /** What the pass knows on its way from the read to the launch. */
  predicate OnItsWay(s: State, t: State)
    requires s.store.Some? && t.pass.Active?
  {
    var pc := t.pass.pc;
    IsLaunching(pc) ==>
      && t.cloud.instances == s.cloud.instances
      && !s.store.value.deleted && !s.store.value.failed
      && (!pc.Gate? && !pc.Find? && t.pass.found.Missing? ==>
            !s.cfg.pool && s.store.value.providerID.Empty? && NothingVisible(s))
      && (pc.PatchSecrets? || pc.UserData? ==> s.cfg.bootstrap == Secrets(true))
      && (pc.AllocateHost? || pc.Launch? ==> CanBootstrap(s.cfg))
  }

  predicate Tracked(s: State, t: State) {
    s.store.Some? && t.pass.Active? && t.cfg == s.cfg && t.pass.before == s.store.value && OnItsWay(s, t)
  }

  lemma TrackFind(s: State, t: State, e: Event)
    requires Inv(t) && Tracked(s, t) && CallEnabled(t, e) && t.pass.pc.Find?
    ensures OnItsWay(s, StepLookup(t, e))
  {}

  lemma TrackLookup(s: State, t: State, e: Event)
    requires Inv(t) && Tracked(s, t) && CallEnabled(t, e) && (t.pass.pc.Gate? || t.pass.pc.PatchFinalizer?)
    ensures OnItsWay(s, StepLookup(t, e))
  {}

  lemma TrackUserData(s: State, t: State, e: Event)
    requires Inv(t) && Tracked(s, t) && CallEnabled(t, e)
    requires IsUserData(t.pass.pc)
    ensures OnItsWay(s, StepUserData(t, e))
  {}

  lemma TrackHost(s: State, t: State, e: Event)
    requires Inv(t) && Tracked(s, t) && CallEnabled(t, e) && (t.pass.pc.AllocateHost? || t.pass.pc.Launch?) && !e.Launched?
    ensures OnItsWay(s, StepLaunch(t, e))
  {}

  lemma TrackedStep(s: State, t: State, e: Event)
    requires Inv(t) && Tracked(s, t) && Enabled(t, e) && Inside(e) && !e.Launched? && Apply(t, e).pass.Active?
    ensures Tracked(s, Apply(t, e))
  {
    FrameCall(t, e);
    var pc := t.pass.pc;
    if pc.Find? {
      TrackFind(s, t, e);
    } else if IsLookup(pc) {
      TrackLookup(s, t, e);
    } else if IsUserData(pc) {
      TrackUserData(s, t, e);
    } else if pc.AllocateHost? || pc.Launch? {
      TrackHost(s, t, e);
    }
  }

  lemma {:induction false} LeadsFrom(s: State, events: seq<Event>, t: State)
    requires Leads(s, events, t) && |events| > 1
    ensures var last := |events| - 1;
            && Replay(s, events[..last]).Some? && Replay(s, events[..last]).value.pass.Active?
            && Leads(s, events[..last], Replay(s, events[..last]).value)
            && Inside(events[last]) && !events[last].Launched?
            && Enabled(Replay(s, events[..last]).value, events[last])
            && t == Apply(Replay(s, events[..last]).value, events[last])
  {}

  lemma {:induction false} LeadsTracked(s: State, events: seq<Event>, t: State)
    requires Inv(s) && s.pass.Idle? && Leads(s, events, t) && t.pass.Active?
    ensures Tracked(s, t) && Inv(t)
  {
    InvFrom(s, events);
    if |events| == 1 {
      assert events[..0] == [];
      assert Replay(s, []) == Some(s);
    } else {
      LeadsFrom(s, events, t);
      var last := |events| - 1;
      LeadsTracked(s, events[..last], Replay(s, events[..last]).value);
      TrackedStep(s, Replay(s, events[..last]).value, events[last]);
    }
  }

  lemma LaunchNeeds(s: State)
    requires Inv(s) && s.pass.Idle? && CanLaunch(s)
    ensures LaunchPossible(s)
  {
    var events, t, e: Event :| Leads(s, events, t) && e.Launched? && Enabled(t, e);
    LaunchEffect(t, e);
    LeadsTracked(s, events, t);
  }

  // A pass to the launch --------------------------------------------------------------------------

  /** A pass for a machine without instance, on its way to the launch. */
  function Stage(s: State, stored: AWSMachine, mem: AWSMachine, cloud: Cloud, pc: PC, userData: Option<SecretEntry>): State
    requires s.store.Some?
  {
    State(s.cfg, Some(stored), s.nodeRef, cloud, Active(pc, mem, s.store.value, s.nodeRef, true, Missing, false, userData))
  }

  function Finalizing(s: State): AWSMachine
    requires s.store.Some?
  {
    s.store.value.(finalizer := true)
  }

  lemma LookStep(s: State)
    requires LaunchPossible(s)
    ensures var m, t := s.store.value, s.(pass := Active(Find, s.store.value, s.store.value, s.nodeRef, true, NotLooked, false, None));
            Moves(t, LookupDone(Missing), Stage(s, m, Finalizing(s), s.cloud, if m.finalizer then PatchStarted else PatchFinalizer, None))
  {}

  lemma FindNothing(s: State)
    requires LaunchPossible(s) && s.pass.Idle?
    ensures Gets(s, Stage(s, s.store.value, Finalizing(s), s.cloud, if s.store.value.finalizer then PatchStarted else PatchFinalizer, None))
  {
    var m := s.store.value;
    Starts(s, true);
    var find := s.(pass := Active(Find, m, m, s.nodeRef, true, NotLooked, false, None));
    Goes(s, ApplyBegin(s, true), Call(true), find);
    LookStep(s);
    Goes(s, find, LookupDone(Missing),
         Stage(s, m, Finalizing(s), s.cloud, if m.finalizer then PatchStarted else PatchFinalizer, None));
  }

  /** The finalizer patch goes through. */
  lemma RegisterStep(s: State)
    requires s.store.Some? && !s.store.value.finalizer && !s.store.value.deleted
    ensures var t := Stage(s, s.store.value, Finalizing(s), s.cloud, PatchFinalizer, None);
            Moves(t, Patched(Delivered), Stage(s, Finalizing(s), Finalizing(s), s.cloud, PatchStarted, None))
  {}

  lemma ReachRawData(s: State)
    requires LaunchPossible(s) && s.pass.Idle?
    ensures Gets(s, Stage(s, Finalizing(s), Finalizing(s), s.cloud, RawData, None))
  {
    FindNothing(s);
    var t := Stage(s, Finalizing(s), Finalizing(s), s.cloud, PatchStarted, None);
    if !s.store.value.finalizer {
      RegisterStep(s);
      Goes(s, Stage(s, s.store.value, Finalizing(s), s.cloud, PatchFinalizer, None), Patched(Delivered), t);
    }
    Goes(s, t, Tick, Stage(s, Finalizing(s), Finalizing(s), s.cloud, RawData, None));
  }

  /** Where the user data leads. */
  function LaunchPoint(cfg: Config): PC {
    if cfg.dynamicHost then AllocateHost else Launch
  }

  lemma PlainDataStep(s: State, m: AWSMachine)
    requires s.store.Some? && (s.cfg.bootstrap.Plain? || s.cfg.bootstrap == Ignition(UnencryptedUserData))
    ensures Moves(Stage(s, m, m, s.cloud, RawData, None), Call(true), Stage(s, m, m, s.cloud, LaunchPoint(s.cfg), None))
  {}

  lemma PlainData(s: State)
    requires LaunchPossible(s) && s.pass.Idle? && (s.cfg.bootstrap.Plain? || s.cfg.bootstrap == Ignition(UnencryptedUserData))
    ensures Gets(s, Stage(s, Finalizing(s), Finalizing(s), s.cloud, LaunchPoint(s.cfg), None))
  {
    ReachRawData(s);
    PlainDataStep(s, Finalizing(s));
    Goes(s, Stage(s, Finalizing(s), Finalizing(s), s.cloud, RawData, None), Call(true),
         Stage(s, Finalizing(s), Finalizing(s), s.cloud, LaunchPoint(s.cfg), None));
  }

  lemma ObjectNextStep(s: State, m: AWSMachine)
    requires s.store.Some? && s.cfg.bootstrap == Ignition(ClusterObjectStore)
    ensures Moves(Stage(s, m, m, s.cloud, RawData, None), Call(true), Stage(s, m, m, s.cloud, CreateObject, None))
  {}

  lemma UploadStep(s: State, m: AWSMachine)
    requires s.store.Some? && s.cfg.bootstrap == Ignition(ClusterObjectStore) && s.cfg.objectStore
    ensures Moves(Stage(s, m, m, s.cloud, CreateObject, None), ObjectCreated(true, true),
                  Stage(s, m, m, s.cloud.(bucketObject := true), LaunchPoint(s.cfg), None))
  {}

  lemma StoredData(s: State)
    requires LaunchPossible(s) && s.pass.Idle? && s.cfg.bootstrap == Ignition(ClusterObjectStore)
    ensures Gets(s, Stage(s, Finalizing(s), Finalizing(s), s.cloud.(bucketObject := true), LaunchPoint(s.cfg), None))
  {
    var m := Finalizing(s);
    ReachRawData(s);
    ObjectNextStep(s, m);
    Goes(s, Stage(s, m, m, s.cloud, RawData, None), Call(true), Stage(s, m, m, s.cloud, CreateObject, None));
    UploadStep(s, m);
    Goes(s, Stage(s, m, m, s.cloud, CreateObject, None), ObjectCreated(true, true),
         Stage(s, m, m, s.cloud.(bucketObject := true), LaunchPoint(s.cfg), None));
  }

  /** The machine and the cloud after one or more secrets are recorded. */
  function WithSecret(m: AWSMachine, prefix: string, chunks: nat): AWSMachine {
    m.(secretPrefix := prefix, secretCount := chunks)
  }

  function MoreSecrets(cloud: Cloud, prefix: string, chunks: nat): Cloud {
    cloud.(secrets := cloud.secrets + Entries(prefix, Below(chunks)))
  }

  /** Any number of chunks under the recorded prefix, or under a new one. */
  predicate SecretsPossible(s: State, prefix: string, chunks: nat) {
    && LaunchPossible(s) && s.cfg.bootstrap == Secrets(true)
    && prefix != "" && chunks > 0 && (s.store.value.secretPrefix == "" || s.store.value.secretPrefix == prefix)
  }

  lemma CreateSecretStep(s: State, prefix: string, chunks: nat)
    requires SecretsPossible(s, prefix, chunks)
    ensures var m, e := Finalizing(s), SecretsCreated(prefix, chunks, false);
            var t := Stage(s, m, m, s.cloud, CreateSecrets, None);
            Moves(t, e, Stage(s, m, WithSecret(m, prefix, chunks), MoreSecrets(s.cloud, prefix, chunks), PatchSecrets, None))
  {}

  lemma PatchSecretStep(s: State, prefix: string, chunks: nat, cloud: Cloud)
    requires s.store.Some? && !s.store.value.deleted
    ensures var t := Stage(s, Finalizing(s), WithSecret(Finalizing(s), prefix, chunks), cloud, PatchSecrets, None);
            Moves(t, Patched(Delivered), Stage(s, WithSecret(Finalizing(s), prefix, chunks), WithSecret(Finalizing(s), prefix, chunks), cloud, UserData, None))
  {}

  lemma SecretCreated(s: State, prefix: string, chunks: nat)
    requires SecretsPossible(s, prefix, chunks) && s.pass.Idle?
    ensures Gets(s, Stage(s, Finalizing(s), WithSecret(Finalizing(s), prefix, chunks), MoreSecrets(s.cloud, prefix, chunks), PatchSecrets, None))
  {
    var m := Finalizing(s);
    ReachRawData(s);
    Goes(s, Stage(s, m, m, s.cloud, RawData, None), Call(true), Stage(s, m, m, s.cloud, CreateSecrets, None));
    CreateSecretStep(s, prefix, chunks);
    Goes(s, Stage(s, m, m, s.cloud, CreateSecrets, None), SecretsCreated(prefix, chunks, false),
         Stage(s, m, WithSecret(m, prefix, chunks), MoreSecrets(s.cloud, prefix, chunks), PatchSecrets, None));
  }

  lemma UserDataStep(s: State, w: AWSMachine, cloud: Cloud)
    requires s.store.Some?
    ensures Moves(Stage(s, w, w, cloud, UserData, None), Call(true),
                  Stage(s, w, w, cloud, LaunchPoint(s.cfg), Some((w.secretPrefix, w.secretCount))))
  {}

  lemma SecretData(s: State, prefix: string, chunks: nat)
    requires SecretsPossible(s, prefix, chunks) && s.pass.Idle?
    ensures var m := WithSecret(Finalizing(s), prefix, chunks);
            Gets(s, Stage(s, m, m, MoreSecrets(s.cloud, prefix, chunks), LaunchPoint(s.cfg), Some((prefix, chunks))))
  {
    var w := WithSecret(Finalizing(s), prefix, chunks);
    var cloud := MoreSecrets(s.cloud, prefix, chunks);
    SecretCreated(s, prefix, chunks);
    PatchSecretStep(s, prefix, chunks, cloud);
    Goes(s, Stage(s, Finalizing(s), w, cloud, PatchSecrets, None), Patched(Delivered), Stage(s, w, w, cloud, UserData, None));
    UserDataStep(s, w, cloud);
    Goes(s, Stage(s, w, w, cloud, UserData, None), Call(true), Stage(s, w, w, cloud, LaunchPoint(s.cfg), Some((prefix, chunks))));
  }

  lemma ReachLaunchPoint(s: State) returns (t: State)
    requires LaunchPossible(s) && s.pass.Idle?
    ensures Gets(s, t) && t.pass.Active? && t.pass.pc == LaunchPoint(s.cfg)
  {
    var m := Finalizing(s);
    if s.cfg.bootstrap.Secrets? {
      var prefix := if s.store.value.secretPrefix == "" then "p" else s.store.value.secretPrefix;
      SecretData(s, prefix, 1);
      var w := WithSecret(m, prefix, 1);
      t := Stage(s, w, w, MoreSecrets(s.cloud, prefix, 1), LaunchPoint(s.cfg), Some((prefix, 1)));
    } else if s.cfg.bootstrap == Ignition(ClusterObjectStore) {
      StoredData(s);
      t := Stage(s, m, m, s.cloud.(bucketObject := true), LaunchPoint(s.cfg), None);
    } else {
      PlainData(s);
      t := Stage(s, m, m, s.cloud, LaunchPoint(s.cfg), None);
    }
  }

  /** There is always one more name. */
  lemma {:induction false} LongerThanAll(names: set<string>) returns (n: nat)
    ensures forall x | x in names :: |x| <= n
  {
    n := 0;
    if names != {} {
      var y :| y in names;
      var rest := LongerThanAll(names - {y});
      n := if |y| < rest then rest else |y|;
    }
  }

  lemma FreshName(names: set<string>) returns (x: string)
    ensures x !in names
  {
    var n := LongerThanAll(names);
    x := seq(n + 1, _ => 'x');
  }

  lemma ReachLaunch(s: State, t: State) returns (u: State)
    requires Gets(s, t) && t.pass.Active? && t.pass.pc.AllocateHost?
    ensures Gets(s, u) && u.pass.Active? && u.pass.pc.Launch?
  {
    var e := Tick;
    if t.pass.mem.host.None? {
      var h := FreshName(t.cloud.hosts);
      e := HostAllocated(h, true);
    }
    u := Apply(t, e);
    Goes(s, t, e, u);
  }

  lemma LaunchStep(t: State) returns (e: Event)
    requires t.pass.Active? && t.pass.pc.Launch?
    ensures e.Launched? && Enabled(t, e)
  {
    var id := FreshName(t.cloud.created + t.cloud.instances.Keys);
    e := Launched(id, Pending, LaunchOk);
  }

  lemma LaunchReached(s: State, t: State)
    requires Gets(s, t) && t.pass.Active? && t.pass.pc.Launch?
    ensures CanLaunch(s)
  {
    var e := LaunchStep(t);
    var events :| Smoothly(s, events, t);
    assert Leads(s, events, t);
  }

  /** From any state between passes, a pass can launch an instance if and only if the tag lookup sees none to stop it. */
  lemma LaunchIff(s: State)
    requires Reachable(s) && s.pass.Idle?
    ensures CanLaunch(s) <==> LaunchPossible(s)
  {
    InvReachable(s);
    if CanLaunch(s) {
      LaunchNeeds(s);
    }
    if LaunchPossible(s) {
      var t := ReachLaunchPoint(s);
      if t.pass.pc.AllocateHost? {
        t := ReachLaunch(s, t);
      }
      LaunchReached(s, t);
    }
  }

  // ---------------------------------------------------------------------------------------------
  // Removing the object
  // ---------------------------------------------------------------------------------------------

  /** The secrets of the machine can be deleted at all. */
  predicate CanDrop(cfg: Config) {
    cfg.bootstrap != Secrets(false)
  }

  /** To a lookup, the instance is absent or terminated. */
  predicate LooksGone(s: State)
    requires s.store.Some?
  {
    match s.store.value.providerID
    case Empty => NothingVisible(s)
    case For(i) => GoneOrTerminated(s.cloud, i)
    case Malformed => false
  }

  predicate RemovalPossible(s: State) {
    s.store.Some? && CanDrop(s.cfg) && LooksGone(s)
  }

  /** A pass can remove the object and leave the instances as in t. */
  ghost predicate CanRemove(s: State, instances: map<InstanceId, InstanceState>) {
    exists events, t :: Leads(s, events, t) && t.store.None? && t.cloud.instances == instances
  }

  // A pass that removes the object ----------------------------------------------------------------

  predicate Removing(s: State, t: State)
    requires s.store.Some? && t.pass.Active?
  {
    var p := t.pass;
    && (p.pc.DropRaw? || p.pc.DropSecrets? || p.pc.DropObject? || p.pc.FindDeleted? ==>
          t.cloud.instances == s.cloud.instances && p.found.NotLooked? && p.mem.finalizer)
    && (p.pc.DropRaw? || p.pc.DropSecrets? || p.pc.DropObject? || p.pc.Close? || IsDeleting(p.pc))
    && (p.pc.DropObject? || IsDeleting(p.pc) ==> CanDrop(s.cfg))
    && (IsDeleting(p.pc) && p.found.Found? && p.found.state.Terminated? ==> t.cloud.instances == s.cloud.instances && LooksGone(s))
    && (p.pc.ReleaseHost? || p.pc.PatchReleased? ==> p.found.Found? && p.found.state.Terminated?)
    && (p.pc.PatchDeleting? || p.pc.Terminate? || p.pc.PatchDetaching? || p.pc.Cleanup? ==>
          p.found.Found? && !p.found.state.Terminated?)
    && (IsDeleting(p.pc) ==> p.mem.finalizer)
    && (p.pc.Close? && !p.mem.finalizer ==> t.cloud.instances == s.cloud.instances && CanDrop(s.cfg) && LooksGone(s))
  }

  predicate TrackedRemoval(s: State, t: State) {
    && s.store.Some? && s.store.value.deleted && !s.cfg.pool && t.pass.Active?
    && t.cfg == s.cfg && t.pass.before == s.store.value && t.pass.mem.deleted && Removing(s, t)
  }

  lemma RemovalDrop(s: State, t: State, e: Event)
    requires Inv(t) && TrackedRemoval(s, t) && CallEnabled(t, e) && (t.pass.pc.DropRaw? || t.pass.pc.DropSecrets? || t.pass.pc.DropObject?)
    ensures StepDrop(t, e).pass.Active? && Removing(s, StepDrop(t, e))
  {}

  lemma RemovalFind(s: State, t: State, e: Event)
    requires Inv(t) && TrackedRemoval(s, t) && CallEnabled(t, e) && t.pass.pc.FindDeleted?
    ensures StepDelete(t, e).pass.Active? && Removing(s, StepDelete(t, e))
  {}

  lemma RemovalDetach(s: State, t: State, e: Event)
    requires TrackedRemoval(s, t) && ControlShape(t) && CallEnabled(t, e) && t.pass.pc.Detach?
    ensures StepDelete(t, e).pass.Active? && Removing(s, StepDelete(t, e))
  {}

  lemma RemovalRest(s: State, t: State, e: Event)
    requires TrackedRemoval(s, t) && ControlShape(t) && CallEnabled(t, e)
    requires IsDeleting(t.pass.pc) && !t.pass.pc.FindDeleted? && !t.pass.pc.Detach?
    ensures StepDelete(t, e).pass.Active? && Removing(s, StepDelete(t, e))
  {}

  lemma RemovalStep(s: State, t: State, e: Event)
    requires Inv(t) && TrackedRemoval(s, t) && Enabled(t, e) && Inside(e) && Apply(t, e).pass.Active?
    ensures TrackedRemoval(s, Apply(t, e))
  {
    FrameCall(t, e);
    var pc := t.pass.pc;
    if pc.FindDeleted? {
      RemovalFind(s, t, e);
    } else if pc.Detach? {
      RemovalDetach(s, t, e);
    } else if IsDeleting(pc) {
      RemovalRest(s, t, e);
    } else {
      RemovalDrop(s, t, e);
    }
  }

  lemma {:induction false} LeadsRemoval(s: State, events: seq<Event>, t: State)
    requires Inv(s) && s.pass.Idle? && s.store.Some? && s.store.value.deleted && !s.cfg.pool
    requires Leads(s, events, t) && t.pass.Active?
    ensures TrackedRemoval(s, t) && Inv(t)
  {
    InvFrom(s, events);
    if |events| == 1 {
      assert events[..0] == [];
      assert Replay(s, []) == Some(s);
    } else {
      LeadsFrom(s, events, t);
      var last := |events| - 1;
      LeadsRemoval(s, events[..last], Replay(s, events[..last]).value);
      RemovalStep(s, Replay(s, events[..last]).value, events[last]);
    }
  }

  /** The object goes in the last patch of the pass, or it does not go at all. */
  lemma LastPatchRemoves(s: State, t: State, e: Event)
    requires Inv(t) && TrackedRemoval(s, t) && t.store.Some? && Enabled(t, e) && Inside(e) && Apply(t, e).store.None?
    ensures t.pass.pc.Close? && !t.pass.mem.finalizer && Apply(t, e).cloud.instances == t.cloud.instances
  {
    StoreEffect(t, e);
    FrameCall(t, e);
  }

  lemma FirstIsBegin(s: State, events: seq<Event>, t: State)
    requires s.pass.Idle? && Leads(s, events, t)
    ensures |events| == 1 ==> t.store == s.store
  {
    if |events| == 1 {
      assert events[..0] == [];
      assert Replay(s, []) == Some(s);
    }
  }

  lemma {:induction false} RemovalNeeds(s: State, events: seq<Event>, t: State)
    requires Inv(s) && s.pass.Idle? && s.store.Some? && s.store.value.deleted && !s.cfg.pool
    requires Leads(s, events, t) && t.store.None?
    ensures RemovalPossible(s) && t.cloud.instances == s.cloud.instances
  {
    FirstIsBegin(s, events, t);
    if |events| > 1 {
      LeadsFrom(s, events, t);
      var last := |events| - 1;
      var u := Replay(s, events[..last]).value;
      LeadsRemoval(s, events[..last], u);
      LastPatchRemoves(s, u, events[last]);
    }
  }

  // A pass to the removal --------------------------------------------------------------------------

  /** A deletion pass of a machine whose Machine names no bootstrap data. */
  function Deleting(s: State, mem: AWSMachine, cloud: Cloud, pc: PC, found: Lookup): State
    requires s.store.Some?
  {
    State(s.cfg, s.store, s.nodeRef, cloud, Active(pc, mem, s.store.value, s.nodeRef, false, found, false, None))
  }

  /** What is left of record and secrets once those that are recorded are deleted. */
  function Forgetting(m: AWSMachine): AWSMachine {
    m.(secretPrefix := "", secretCount := 0)
  }

  function FewerSecrets(cloud: Cloud, m: AWSMachine): Cloud {
    cloud.(secrets := cloud.secrets - Entries(m.secretPrefix, Below(m.secretCount)))
  }

  lemma NothingToForget(s: State)
    requires Inv(s) && s.store.Some? && s.store.value.secretPrefix == ""
    ensures Forgetting(s.store.value) == s.store.value && FewerSecrets(s.cloud, s.store.value) == s.cloud
  {
    assert Entries("", Below(0)) == {};
  }

  /** A pass that was asked to delete a machine it can delete. */
  predicate DeletionAsked(s: State) {
    s.pass.Idle? && s.store.Some? && s.store.value.deleted && !s.cfg.pool && CanDrop(s.cfg)
  }

  lemma NoSecretsStep(s: State)
    requires Inv(s) && DeletionAsked(s) && s.store.value.secretPrefix == ""
    ensures var t := Deleting(s, s.store.value, s.cloud, DropSecrets(FromDelete), NotLooked);
            Moves(t, Tick, Deleting(s, s.store.value, s.cloud, DropObject(FromDelete), NotLooked))
  {}

  lemma DropSecretsStep(s: State)
    requires Inv(s) && DeletionAsked(s) && s.store.value.secretPrefix != ""
    ensures var m := s.store.value;
            var t, e := Deleting(s, m, s.cloud, DropSecrets(FromDelete), NotLooked), SecretsDeleted(Below(m.secretCount), true);
            Moves(t, e, Deleting(s, Forgetting(m), FewerSecrets(s.cloud, m), DropObject(FromDelete), NotLooked))
  {
    var m := s.store.value;
    assert Below(m.secretCount) * Below(m.secretCount) == Below(m.secretCount);
  }

  lemma DropRawStep(s: State)
    requires s.store.Some?
    ensures var m := s.store.value;
            Moves(Deleting(s, m, s.cloud, DropRaw(FromDelete), NotLooked), Call(true),
                  Deleting(s, m, s.cloud, DropSecrets(FromDelete), NotLooked))
  {}

  lemma ReachDropSecrets(s: State)
    requires DeletionAsked(s)
    ensures Gets(s, Deleting(s, s.store.value, s.cloud, DropSecrets(FromDelete), NotLooked))
  {
    var m := s.store.value;
    Starts(s, false);
    DropRawStep(s);
    Goes(s, Deleting(s, m, s.cloud, DropRaw(FromDelete), NotLooked), Call(true),
         Deleting(s, m, s.cloud, DropSecrets(FromDelete), NotLooked));
  }

  lemma SecretsDropped(s: State)
    requires Inv(s) && DeletionAsked(s)
    ensures Gets(s, Deleting(s, Forgetting(s.store.value), FewerSecrets(s.cloud, s.store.value), DropObject(FromDelete), NotLooked))
  {
    var m := s.store.value;
    ReachDropSecrets(s);
    var t := Deleting(s, m, s.cloud, DropSecrets(FromDelete), NotLooked);
    var u := Deleting(s, Forgetting(m), FewerSecrets(s.cloud, m), DropObject(FromDelete), NotLooked);
    if m.secretPrefix == "" {
      NothingToForget(s);
      NoSecretsStep(s);
      Goes(s, t, Tick, u);
    } else {
      DropSecretsStep(s);
      Goes(s, t, SecretsDeleted(Below(m.secretCount), true), u);
    }
  }

  lemma NoObjectStep(s: State, m: AWSMachine, cloud: Cloud)
    requires s.store.Some?
    ensures var t := Deleting(s, m, cloud, DropObject(FromDelete), NotLooked);
            Moves(t, Tick, Deleting(s, m, cloud, FindDeleted, NotLooked))
  {}

  lemma ReachFindDeleted(s: State)
    requires Inv(s) && DeletionAsked(s)
    ensures Gets(s, Deleting(s, Forgetting(s.store.value), FewerSecrets(s.cloud, s.store.value), FindDeleted, NotLooked))
  {
    var m, cloud := Forgetting(s.store.value), FewerSecrets(s.cloud, s.store.value);
    SecretsDropped(s);
    NoObjectStep(s, m, cloud);
    Goes(s, Deleting(s, m, cloud, DropObject(FromDelete), NotLooked), Tick, Deleting(s, m, cloud, FindDeleted, NotLooked));
  }

  /** The last patch, with the finalizer dropped. */
  lemma LastPatchStep(s: State, mem: AWSMachine, cloud: Cloud, stored: AWSMachine, found: Lookup)
    requires s.store.Some? && s.store.value.deleted && s.store.value.finalizer && !mem.finalizer && stored.deleted
    ensures Moves(Deleting(s, mem, cloud, Close, found).(store := Some(stored)), Patched(Delivered), State(s.cfg, None, s.nodeRef, cloud, Idle))
  {}

  lemma LastPatch(s: State, mem: AWSMachine, cloud: Cloud, stored: AWSMachine, found: Lookup)
    requires s.store.Some? && s.store.value.deleted && s.store.value.finalizer && !mem.finalizer && stored.deleted
    requires Gets(s, Deleting(s, mem, cloud, Close, found).(store := Some(stored)))
    ensures Gets(s, State(s.cfg, None, s.nodeRef, cloud, Idle))
  {
    LastPatchStep(s, mem, cloud, stored, found);
    Goes(s, Deleting(s, mem, cloud, Close, found).(store := Some(stored)), Patched(Delivered), State(s.cfg, None, s.nodeRef, cloud, Idle));
  }

  lemma FoundStep(s: State, m: AWSMachine, cloud: Cloud, i: InstanceId, state: InstanceState)
    requires s.store.Some? && LookupPossible(cloud, m.providerID, Found(i, state))
    ensures var t, e := Deleting(s, m, cloud, FindDeleted, NotLooked), LookupDone(Found(i, state));
            Moves(t, e, Deleting(s, m, cloud, Detach, Found(i, state)))
  {}

  lemma MissingStep(s: State, m: AWSMachine, cloud: Cloud)
    requires s.store.Some? && LookupPossible(cloud, m.providerID, Missing)
    ensures var t := Deleting(s, m, cloud, FindDeleted, NotLooked);
            Moves(t, LookupDone(Missing), Deleting(s, m.(finalizer := false), cloud, Close, Missing))
  {}

  /** The way through the lookup that finds nothing. */
  lemma RemoveMissing(s: State)
    requires Inv(s) && DeletionAsked(s) && LookupPossible(s.cloud, s.store.value.providerID, Missing)
    ensures Gets(s, State(s.cfg, None, s.nodeRef, FewerSecrets(s.cloud, s.store.value), Idle))
  {
    var m, cloud := Forgetting(s.store.value), FewerSecrets(s.cloud, s.store.value);
    ReachFindDeleted(s);
    MissingStep(s, m, cloud);
    Goes(s, Deleting(s, m, cloud, FindDeleted, NotLooked), LookupDone(Missing), Deleting(s, m.(finalizer := false), cloud, Close, Missing));
    LastPatch(s, m.(finalizer := false), cloud, s.store.value, Missing);
  }

  predicate RecordedTerminated(s: State, i: InstanceId) {
    s.store.Some? && s.store.value.providerID == For(i) && i in s.cloud.instances && s.cloud.instances[i].Terminated?
  }

  lemma FindTerminated(s: State, i: InstanceId)
    requires Inv(s) && DeletionAsked(s) && RecordedTerminated(s, i)
    ensures Gets(s, Deleting(s, Forgetting(s.store.value), FewerSecrets(s.cloud, s.store.value), Detach, Found(i, Terminated)))
  {
    var m, cloud := Forgetting(s.store.value), FewerSecrets(s.cloud, s.store.value);
    ReachFindDeleted(s);
    FoundStep(s, m, cloud, i, Terminated);
    Goes(s, Deleting(s, m, cloud, FindDeleted, NotLooked), LookupDone(Found(i, Terminated)), Deleting(s, m, cloud, Detach, Found(i, Terminated)));
  }

  function Releasing(cloud: Cloud, h: HostId): Cloud {
    cloud.(hosts := cloud.hosts - {h})
  }

  lemma ReleaseStep(s: State, m: AWSMachine, cloud: Cloud, h: HostId, found: Lookup)
    requires s.store.Some? && m.host == Some(h)
    ensures var t := Deleting(s, m, cloud, ReleaseHost, found);
            Moves(t, HostReleased(true, true), Deleting(s, m.(hostReleased := true), Releasing(cloud, h), PatchReleased, found))
  {}

  lemma PatchReleasedStep(s: State, m: AWSMachine, cloud: Cloud, found: Lookup) returns (stored: AWSMachine)
    requires s.store.Some? && s.store.value.deleted && s.store.value.finalizer && m.finalizer
    ensures var t := Deleting(s, m, cloud, PatchReleased, found);
            stored.deleted && Moves(t, Patched(Delivered), Deleting(s, m.(finalizer := false), cloud, Close, found).(store := Some(stored)))
  {
    stored := PatchedStore(s.store, s.store.value, m, Delivered).value;
  }

  lemma DetachStep(s: State, m: AWSMachine, cloud: Cloud, i: InstanceId)
    requires s.store.Some? && m.host.Some? && s.cfg.dynamicHost
    ensures var t := Deleting(s, m, cloud, Detach, Found(i, Terminated));
            Moves(t, Call(true), Deleting(s, m, cloud, ReleaseHost, Found(i, Terminated)))
  {}

  lemma DetachLastStep(s: State, m: AWSMachine, cloud: Cloud, i: InstanceId)
    requires s.store.Some? && !(m.host.Some? && s.cfg.dynamicHost)
    ensures var t := Deleting(s, m, cloud, Detach, Found(i, Terminated));
            Moves(t, Call(true), Deleting(s, m.(finalizer := false), cloud, Close, Found(i, Terminated)))
  {}

  lemma RemoveDirectly(s: State, m: AWSMachine, cloud: Cloud, i: InstanceId)
    requires s.store.Some? && s.store.value.deleted && s.store.value.finalizer && !(m.host.Some? && s.cfg.dynamicHost)
    requires Gets(s, Deleting(s, m, cloud, Detach, Found(i, Terminated)))
    ensures Gets(s, State(s.cfg, None, s.nodeRef, cloud, Idle))
  {
    var found := Found(i, Terminated);
    DetachLastStep(s, m, cloud, i);
    Goes(s, Deleting(s, m, cloud, Detach, found), Call(true), Deleting(s, m.(finalizer := false), cloud, Close, found));
    LastPatch(s, m.(finalizer := false), cloud, s.store.value, found);
  }

  lemma RemoveReleasing(s: State, m: AWSMachine, cloud: Cloud, h: HostId, found: Lookup)
    requires s.store.Some? && s.store.value.deleted && s.store.value.finalizer && m.finalizer && m.host == Some(h)
    requires Gets(s, Deleting(s, m, cloud, ReleaseHost, found))
    ensures Gets(s, State(s.cfg, None, s.nodeRef, Releasing(cloud, h), Idle))
  {
    var r, fewer := m.(hostReleased := true), Releasing(cloud, h);
    ReleaseStep(s, m, cloud, h, found);
    Goes(s, Deleting(s, m, cloud, ReleaseHost, found), HostReleased(true, true), Deleting(s, r, fewer, PatchReleased, found));
    var stored := PatchReleasedStep(s, r, fewer, found);
    Goes(s, Deleting(s, r, fewer, PatchReleased, found), Patched(Delivered),
         Deleting(s, r.(finalizer := false), fewer, Close, found).(store := Some(stored)));
    LastPatch(s, r.(finalizer := false), fewer, stored, found);
  }

  /** The way through the terminated case, with or without a host to release. */
  lemma RemoveTerminated(s: State, i: InstanceId) returns (t: State)
    requires Inv(s) && DeletionAsked(s) && RecordedTerminated(s, i)
    ensures Gets(s, t) && t.store.None? && t.cloud.instances == s.cloud.instances
  {
    FindTerminated(s, i);
    var m, cloud := Forgetting(s.store.value), FewerSecrets(s.cloud, s.store.value);
    if m.host.Some? && s.cfg.dynamicHost {
      DetachStep(s, m, cloud, i);
      Goes(s, Deleting(s, m, cloud, Detach, Found(i, Terminated)), Call(true), Deleting(s, m, cloud, ReleaseHost, Found(i, Terminated)));
      RemoveReleasing(s, m, cloud, m.host.value, Found(i, Terminated));
      t := State(s.cfg, None, s.nodeRef, Releasing(cloud, m.host.value), Idle);
    } else {
      RemoveDirectly(s, m, cloud, i);
      t := State(s.cfg, None, s.nodeRef, cloud, Idle);
    }
  }

  lemma Removes(s: State) returns (t: State)
    requires Inv(s) && s.pass.Idle? && s.store.Some? && s.store.value.deleted && !s.cfg.pool && RemovalPossible(s)
    ensures Gets(s, t) && t.store.None? && t.cloud.instances == s.cloud.instances
  {
    if LookupPossible(s.cloud, s.store.value.providerID, Missing) {
      RemoveMissing(s);
      t := State(s.cfg, None, s.nodeRef, FewerSecrets(s.cloud, s.store.value), Idle);
    } else {
      t := RemoveTerminated(s, s.store.value.providerID.id);
    }
  }

  /** A deletion pass can remove the object if and only if a lookup finds the instance absent or terminated. */
  lemma RemovalIff(s: State, instances: map<InstanceId, InstanceState>)
    requires Reachable(s) && s.pass.Idle? && s.store.Some? && s.store.value.deleted && !s.cfg.pool
    ensures CanRemove(s, instances) <==> RemovalPossible(s) && instances == s.cloud.instances
  {
    InvReachable(s);
    if CanRemove(s, instances) {
      var events, t :| Leads(s, events, t) && t.store.None? && t.cloud.instances == instances;
      RemovalNeeds(s, events, t);
    }
    if RemovalPossible(s) && instances == s.cloud.instances {
      var t := Removes(s);
      var events :| Smoothly(s, events, t);
      assert Leads(s, events, t);
    }
  }

  /** So an instance that is neither gone nor terminated is left behind if and only if no lookup sees it. */
  lemma LeftBehindIff(s: State, i: InstanceId)
    requires Reachable(s) && s.pass.Idle? && s.store.Some? && s.store.value.deleted && !s.cfg.pool
    requires !GoneOrTerminated(s.cloud, i)
    ensures CanRemove(s, s.cloud.instances) <==>
            && CanDrop(s.cfg)
            && (if s.store.value.providerID.Empty? then NothingVisible(s)
                else s.store.value.providerID.For? && s.store.value.providerID.id != i && GoneOrTerminated(s.cloud, s.store.value.providerID.id))
  {
    RemovalIff(s, s.cloud.instances);
  }
}
