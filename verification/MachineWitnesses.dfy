/** Concrete runs: what goes wrong when a condition of the theorems about machines fails. */
module MachineWitnesses {
  import opened Basics
  import opened MachineProtocol
  import opened MachineInvariant
  import opened MachineSafety
  import opened MachinePasses

  function Beginning(cfg: Config): State {
    State(cfg, Some(NewMachine), false, Cloud(map[], {}, {}, false, {}), Idle)
  }

  /** The events lead from s0 to s, and every patch among them is delivered. */
  ghost predicate RunsBy(s0: State, events: seq<Event>, s: State) {
    Init(s0) && Replay(s0, events) == Some(s) && AllSmooth(events)
  }

  /** Some run leads from s0 to s. */
  ghost predicate Runs(s0: State, s: State) {
    exists events :: RunsBy(s0, events, s)
  }

  lemma FirstOf(cfg: Config)
    requires !cfg.pool
    ensures Runs(Beginning(cfg), Beginning(cfg))
  {
    assert RunsBy(Beginning(cfg), [], Beginning(cfg));
  }

  lemma RunInv(s0: State, s: State)
    requires Runs(s0, s)
    ensures Inv(s) && Reachable(s)
  {
    var events :| RunsBy(s0, events, s);
    InvInit(s0);
    InvFrom(s0, events);
  }

  lemma More(s0: State, s: State, e: Event, t: State)
    requires Runs(s0, s) && Smooth(e) && Moves(s, e, t)
    ensures Runs(s0, t)
  {
    var events :| RunsBy(s0, events, s);
    Extend(s0, events, s, e);
    assert RunsBy(s0, events + [e], t);
  }

  lemma ThenPass(s0: State, s: State, t: State)
    requires Runs(s0, s) && Gets(s, t)
    ensures Runs(s0, t)
  {
    var first :| RunsBy(s0, first, s);
    var events :| Smoothly(s, events, t);
    ReplayConcat(s0, first, events);
    assert RunsBy(s0, first + events, t);
  }

  /** The last patch sends everything the pass has changed and not sent before. */
  lemma CloseStep(s: State, stored: AWSMachine, mem: AWSMachine, cloud: Cloud, userData: Option<SecretEntry>)
    requires s.store.Some? && PatchedStore(Some(stored), s.store.value, mem, Delivered) == Some(mem)
    ensures Moves(Stage(s, stored, mem, cloud, Close, userData), Patched(Delivered), State(s.cfg, Some(mem), s.nodeRef, cloud, Idle))
  {}

  lemma ClosePass(s0: State, s: State, stored: AWSMachine, mem: AWSMachine, cloud: Cloud, userData: Option<SecretEntry>)
    requires s.store.Some? && Runs(s0, Stage(s, stored, mem, cloud, Close, userData))
    requires PatchedStore(Some(stored), s.store.value, mem, Delivered) == Some(mem)
    ensures Runs(s0, State(s.cfg, Some(mem), s.nodeRef, cloud, Idle))
  {
    CloseStep(s, stored, mem, cloud, userData);
    More(s0, Stage(s, stored, mem, cloud, Close, userData), Patched(Delivered), State(s.cfg, Some(mem), s.nodeRef, cloud, Idle));
  }

  lemma NoLaunchStep(s: State, m: AWSMachine, cloud: Cloud, userData: Option<SecretEntry>)
    requires s.store.Some?
    ensures var t := Stage(s, m, m, cloud, Launch, userData);
            Moves(t, LaunchFailed(false), Stage(s, m, m, cloud, Close, userData))
  {}

  /** The launch fails, with everything sent before it. */
  lemma FailLaunch(s0: State, s: State, m: AWSMachine, cloud: Cloud, userData: Option<SecretEntry>)
    requires s.store.Some? && !m.deleted && !s.store.value.deleted && Runs(s0, Stage(s, m, m, cloud, Launch, userData))
    ensures Runs(s0, State(s.cfg, Some(m), s.nodeRef, cloud, Idle))
  {
    NoLaunchStep(s, m, cloud, userData);
    More(s0, Stage(s, m, m, cloud, Launch, userData), LaunchFailed(false), Stage(s, m, m, cloud, Close, userData));
    ClosePass(s0, s, m, m, cloud, userData);
  }

  function Removed(s: State): State
    requires s.store.Some?
  {
    State(s.cfg, None, s.nodeRef, FewerSecrets(s.cloud, s.store.value), Idle)
  }

  function AskedToGo(s: State): State
    requires s.store.Some?
  {
    s.(store := Some(s.store.value.(deleted := true)))
  }

  lemma AskStep(s0: State, s: State)
    requires Runs(s0, s) && s.store.Some? && s.store.value.finalizer
    ensures Runs(s0, AskedToGo(s))
  {
    More(s0, s, UserDelete, AskedToGo(s));
  }

  /** A pass whose lookup finds nothing removes the machine. */
  lemma RemoveRun(s0: State, s: State)
    requires Runs(s0, s) && DeletionAsked(s) && LookupPossible(s.cloud, s.store.value.providerID, Missing)
    ensures Runs(s0, Removed(s))
  {
    RunInv(s0, s);
    RemoveMissing(s);
    ThenPass(s0, s, Removed(s));
  }

  /** The user deletes the machine, and such a pass removes it. */
  lemma DeleteMissing(s0: State, s: State)
    requires Runs(s0, s) && s.pass.Idle? && s.store.Some? && s.store.value.finalizer && !s.cfg.pool && CanDrop(s.cfg)
    requires LookupPossible(s.cloud, s.store.value.providerID, Missing)
    ensures Runs(s0, Removed(s))
  {
    AskStep(s0, s);
    RemoveRun(s0, AskedToGo(s));
  }

  // ---------------------------------------------------------------------------------------------
  // A second instance, and one left behind
  // ---------------------------------------------------------------------------------------------

  const Simple := Config(false, Plain, false, false)

  /** One pass launches an instance and does not record it. */
  function Unrecorded(cfg: Config, i: InstanceId, state: InstanceState): State {
    State(cfg, Some(NewMachine.(finalizer := true)), false, Cloud(map[i := state], {i}, {}, false, {}), Idle)
  }

  /** The launch at a pass that has nothing else to do, reported as failed before its ID is recorded. */
  lemma LostLaunchStep(s: State, m: AWSMachine, i: InstanceId)
    requires s.store.Some? && i !in s.cloud.created && i !in s.cloud.instances
    ensures var t, e := Stage(s, m, m, s.cloud, Launch, None), Launched(i, Pending, ErrorUnrecorded);
            Moves(t, e, Stage(s, m, m, WithInstance(s.cloud, i), Close, None))
  {}

  function WithInstance(cloud: Cloud, i: InstanceId): Cloud {
    cloud.(instances := cloud.instances[i := Pending], created := cloud.created + {i})
  }

  lemma LoseLaunch(s0: State, s: State, i: InstanceId)
    requires Runs(s0, s) && LaunchPossible(s) && s.pass.Idle? && s.cfg == Simple && i !in s.cloud.created && i !in s.cloud.instances
    ensures Runs(s0, Stage(s, Finalizing(s), Finalizing(s), WithInstance(s.cloud, i), Close, None))
  {
    var m := Finalizing(s);
    PlainData(s);
    ThenPass(s0, s, Stage(s, m, m, s.cloud, Launch, None));
    LostLaunchStep(s, m, i);
    More(s0, Stage(s, m, m, s.cloud, Launch, None), Launched(i, Pending, ErrorUnrecorded), Stage(s, m, m, WithInstance(s.cloud, i), Close, None));
  }

  lemma LaunchUnrecorded(i: InstanceId)
    ensures Runs(Beginning(Simple), Unrecorded(Simple, i, Pending))
  {
    var s0 := Beginning(Simple);
    FirstOf(Simple);
    LoseLaunch(s0, s0, i);
    assert WithInstance(s0.cloud, i) == Cloud(map[i := Pending], {i}, {}, false, {});
    ClosePass(s0, s0, Finalizing(s0), Finalizing(s0), WithInstance(s0.cloud, i), None);
  }

  /** Somebody else stops it. */
  lemma StoppedUnrecorded(i: InstanceId)
    ensures Runs(Beginning(Simple), Unrecorded(Simple, i, Stopped))
  {
    LaunchUnrecorded(i);
    More(Beginning(Simple), Unrecorded(Simple, i, Pending), InstanceMoves(i, Stopped), Unrecorded(Simple, i, Stopped));
  }

  /** An instance stopped by somebody else before its ID was recorded is invisible: a second one is launched. */
  lemma StoppedInstanceIsReplaced()
    ensures exists s0, events :: Init(s0) && Replay(s0, events).Some? && |Replay(s0, events).value.cloud.created| == 2
  {
    var s0, s := Beginning(Simple), Unrecorded(Simple, "i-1", Stopped);
    StoppedUnrecorded("i-1");
    LoseLaunch(s0, s, "i-2");
    var t := Stage(s, Finalizing(s), Finalizing(s), WithInstance(s.cloud, "i-2"), Close, None);
    var events :| RunsBy(s0, events, t);
    assert t.cloud.created == {"i-1", "i-2"};
    assert |t.cloud.created| == 2;
  }

  /** The same stopped instance is left behind when its machine is deleted. */
  lemma StoppedInstanceIsOrphaned()
    ensures exists s0, events :: && Init(s0) && Replay(s0, events).Some?
                                 && Replay(s0, events).value.store.None?
                                 && !NoneLeft(Replay(s0, events).value)
  {
    var s := Unrecorded(Simple, "i-1", Stopped);
    StoppedUnrecorded("i-1");
    DeleteMissing(Beginning(Simple), s);
    var events :| RunsBy(Beginning(Simple), events, Removed(s));
    assert !Dead(Removed(s), "i-1");
  }

  // ---------------------------------------------------------------------------------------------
  // An instance that is still shutting down
  // ---------------------------------------------------------------------------------------------

  /** A deletion pass that found the pending instance by its tags. */
  function Terminating(i: InstanceId, state: InstanceState, pc: PC): State {
    var s := AskedToGo(Unrecorded(Simple, i, state));
    Deleting(s, s.store.value, s.cloud, pc, Found(i, Pending))
  }

  lemma PatchDeletingStep(i: InstanceId)
    ensures var t := Terminating(i, Pending, PatchDeleting);
            Moves(t, Patched(Delivered), Terminating(i, Pending, Terminate))
  {}

  lemma TerminateStep(i: InstanceId)
    ensures var t, e := Terminating(i, Pending, Terminate), TerminateCalled(true, true);
            Moves(t, e, Terminating(i, ShuttingDown, PatchDetaching))
  {
    assert Terminating(i, Pending, Terminate).cloud.instances[i := ShuttingDown] == map[i := ShuttingDown];
  }

  lemma CloseDeletingStep(i: InstanceId)
    ensures var t := Terminating(i, ShuttingDown, Close);
            Moves(t, Patched(Delivered), AskedToGo(Unrecorded(Simple, i, ShuttingDown)))
  {}

  lemma TerminatingStep(i: InstanceId)
    ensures var t, u := Terminating(i, ShuttingDown, PatchDetaching), Terminating(i, ShuttingDown, Cleanup);
            Moves(t, Tick, u)
  {}

  lemma CleanupStep(i: InstanceId)
    ensures var t, u := Terminating(i, ShuttingDown, Cleanup), Terminating(i, ShuttingDown, Close);
            Moves(t, Call(true), u)
  {}

  lemma FindPending(i: InstanceId)
    ensures Runs(Beginning(Simple), Terminating(i, Pending, Detach))
  {
    var s0 := Beginning(Simple);
    LaunchUnrecorded(i);
    AskStep(s0, Unrecorded(Simple, i, Pending));
    var s := AskedToGo(Unrecorded(Simple, i, Pending));
    RunInv(s0, s);
    NothingToForget(s);
    ReachFindDeleted(s);
    ThenPass(s0, s, Deleting(s, s.store.value, s.cloud, FindDeleted, NotLooked));
    FoundStep(s, s.store.value, s.cloud, i, Pending);
    More(s0, Deleting(s, s.store.value, s.cloud, FindDeleted, NotLooked), LookupDone(Found(i, Pending)), Terminating(i, Pending, Detach));
  }

  lemma TerminatePending(i: InstanceId)
    ensures Runs(Beginning(Simple), Terminating(i, ShuttingDown, PatchDetaching))
  {
    var s0 := Beginning(Simple);
    FindPending(i);
    More(s0, Terminating(i, Pending, Detach), Call(true), Terminating(i, Pending, PatchDeleting));
    PatchDeletingStep(i);
    More(s0, Terminating(i, Pending, PatchDeleting), Patched(Delivered), Terminating(i, Pending, Terminate));
    TerminateStep(i);
    More(s0, Terminating(i, Pending, Terminate), TerminateCalled(true, true), Terminating(i, ShuttingDown, PatchDetaching));
  }

  lemma TerminatePass(i: InstanceId)
    ensures Runs(Beginning(Simple), AskedToGo(Unrecorded(Simple, i, ShuttingDown)))
  {
    var s0 := Beginning(Simple);
    TerminatePending(i);
    TerminatingStep(i);
    More(s0, Terminating(i, ShuttingDown, PatchDetaching), Tick, Terminating(i, ShuttingDown, Cleanup));
    CleanupStep(i);
    More(s0, Terminating(i, ShuttingDown, Cleanup), Call(true), Terminating(i, ShuttingDown, Close));
    CloseDeletingStep(i);
    More(s0, Terminating(i, ShuttingDown, Close), Patched(Delivered), AskedToGo(Unrecorded(Simple, i, ShuttingDown)));
  }

  /** Without a recorded ID the next pass no longer sees the instance, and the object goes while it is shutting down. */
  lemma ObjectGoesDuringShutdown()
    ensures exists s0, events, i :: && Init(s0) && Replay(s0, events).Some?
                                    && Replay(s0, events).value.store.None?
                                    && i in Replay(s0, events).value.cloud.instances
                                    && Replay(s0, events).value.cloud.instances[i].ShuttingDown?
  {
    var s := AskedToGo(Unrecorded(Simple, "i-1", ShuttingDown));
    TerminatePass("i-1");
    RemoveRun(Beginning(Simple), s);
    var events :| RunsBy(Beginning(Simple), events, Removed(s));
    assert "i-1" in Removed(s).cloud.instances;
  }

  // ---------------------------------------------------------------------------------------------
  // Lost secrets
  // ---------------------------------------------------------------------------------------------

  const Secretive := Config(false, Secrets(true), false, false)

  const OneSecret := MoreSecrets(Beginning(Secretive).cloud, "p", 1)

  /** Between passes, with the secret created and not recorded. */
  const Unnamed := State(Secretive, Some(NewMachine.(finalizer := true)), false, OneSecret, Idle)

  /** Some run, crashes included, leads to s. */
  ghost predicate Comes(s: State) {
    exists events :: Replay(Beginning(Secretive), events) == Some(s)
  }

  /** A pass creates the secret and crashes before it records the prefix. */
  lemma CrashBeforeRecord()
    ensures Comes(Unnamed)
  {
    var s0 := Beginning(Secretive);
    SecretCreated(s0, "p", 1);
    var t := Stage(s0, Finalizing(s0), WithSecret(Finalizing(s0), "p", 1), OneSecret, PatchSecrets, None);
    var events :| Smoothly(s0, events, t);
    Extend(s0, events, t, Crash);
  }

  lemma CrashedThenAsked()
    ensures Comes(AskedToGo(Unnamed)) && Inv(AskedToGo(Unnamed))
  {
    var s0 := Beginning(Secretive);
    CrashBeforeRecord();
    var events :| Replay(s0, events) == Some(Unnamed);
    Extend(s0, events, Unnamed, UserDelete);
    InvInit(s0);
    InvFrom(s0, events + [UserDelete]);
  }

  lemma ComesPass(s: State, t: State)
    requires Comes(s) && Gets(s, t)
    ensures Comes(t)
  {
    var first :| Replay(Beginning(Secretive), first) == Some(s);
    var pass :| Smoothly(s, pass, t);
    ReplayConcat(Beginning(Secretive), first, pass);
  }

  lemma CrashedThenDeleted()
    ensures Comes(Removed(AskedToGo(Unnamed)))
  {
    var s := AskedToGo(Unnamed);
    CrashedThenAsked();
    RemoveMissing(s);
    ComesPass(s, Removed(s));
  }

  /** A crash between creating the secret and recording its prefix leaves the secret behind for good. */
  lemma CrashLosesSecret()
    ensures exists s0, events :: && Init(s0) && Replay(s0, events).Some?
                                 && UndisturbedRun(s0, events)
                                 && Replay(s0, events).value.store.None?
                                 && Replay(s0, events).value.cloud.secrets != {}
  {
    var s0, s := Beginning(Secretive), AskedToGo(Unnamed);
    CrashedThenAsked();
    NothingToForget(s);
    CrashedThenDeleted();
    var events :| Replay(s0, events) == Some(Removed(s));
    NothingMoves(s0, events, Removed(s));
    assert ("p", 0) in OneSecret.secrets;
  }

  /** A run that ends without any instance was not disturbed. */
  lemma {:induction false} NothingMoves(s0: State, events: seq<Event>, s: State)
    requires Replay(s0, events) == Some(s) && s.cloud.created == {}
    ensures UndisturbedRun(s0, events)
  {
    if events != [] {
      var last := |events| - 1;
      var u := Replay(s0, events[..last]).value;
      LaunchEffect(u, events[last]);
      NothingMoves(s0, events[..last], u);
    }
  }

  /** Between passes, with this many entries recorded and these existing. */
  function Recording(chunks: nat, existing: nat): State {
    State(Secretive, Some(WithSecret(NewMachine.(finalizer := true), "p", chunks)), false,
          Cloud(map[], {}, Entries("p", Below(existing)), false, {}), Idle)
  }

  /** One pass stores some entries, records them, and fails to launch. */
  lemma StoreOnly(s0: State, s: State, chunks: nat)
    requires Runs(s0, s) && LaunchPossible(s) && s.pass.Idle? && s.cfg == Secretive && chunks > 0
    requires s.store.value.secretPrefix == "" || s.store.value.secretPrefix == "p"
    ensures Runs(s0, State(s.cfg, Some(WithSecret(Finalizing(s), "p", chunks)), s.nodeRef, MoreSecrets(s.cloud, "p", chunks), Idle))
  {
    var w, cloud := WithSecret(Finalizing(s), "p", chunks), MoreSecrets(s.cloud, "p", chunks);
    SecretData(s, "p", chunks);
    ThenPass(s0, s, Stage(s, w, w, cloud, Launch, Some(("p", chunks))));
    FailLaunch(s0, s, w, cloud, Some(("p", chunks)));
  }

  /**
   No crash, and every patch delivered: two entries are stored and recorded, a retry stores one and records that, and
   the second entry outlives the object.
   */
  lemma ShrinkingRetryLosesSecret()
    ensures exists s0, events :: && Init(s0) && Replay(s0, events).Some? && AllSmooth(events)
                                 && Replay(s0, events).value.store.None?
                                 && ("p", 1) in Replay(s0, events).value.cloud.secrets
  {
    var s0 := Beginning(Secretive);
    FirstOf(Secretive);
    StoreOnly(s0, s0, 2);
    assert MoreSecrets(s0.cloud, "p", 2) == Recording(2, 2).cloud;
    StoreOnly(s0, Recording(2, 2), 1);
    assert MoreSecrets(Recording(2, 2).cloud, "p", 1).secrets == Recording(1, 2).cloud.secrets;
    DeleteMissing(s0, Recording(1, 2));
    assert ("p", 1) in Entries("p", Below(2)) && ("p", 1) !in Entries("p", Below(1));
    var events :| RunsBy(s0, events, Removed(Recording(1, 2)));
  }

  // ---------------------------------------------------------------------------------------------
  // A prefix that outlives its secrets
  // ---------------------------------------------------------------------------------------------

  const Joined := State(Secretive, Some(NewMachine), true, Cloud(map[], {}, {}, false, {}), Idle)

  /** The pass that created, recorded and deleted the secret of a machine that is a node already. */
  function Cleared(pc: PC, mem: AWSMachine, cloud: Cloud): State {
    State(Secretive, Some(WithSecret(NewMachine.(finalizer := true), "p", 1)), true, cloud,
          Active(pc, mem, NewMachine, true, true, Found("i-1", Pending), false, Some(("p", 1))))
  }

  function NodeCloud(secrets: set<SecretEntry>): Cloud {
    Cloud(map["i-1" := Pending], {"i-1"}, secrets, false, {})
  }

  /** The machine as recorded in memory after the launch. */
  function NodeMachine(prefix: string, chunks: nat): AWSMachine {
    AWSMachine(true, false, For("i-1"), Some("i-1"), prefix, chunks, Some(Pending), false, None, false)
  }

  const SecretKnown := WithSecret(NewMachine.(finalizer := true), "p", 1)

  lemma ReachJoined()
    ensures Runs(Beginning(Secretive),
                 Stage(Joined, SecretKnown, SecretKnown, MoreSecrets(Joined.cloud, "p", 1), Launch, Some(("p", 1))))
  {
    var s0 := Beginning(Secretive);
    FirstOf(Secretive);
    More(s0, s0, NodeJoins, Joined);
    SecretData(Joined, "p", 1);
    ThenPass(s0, Joined, Stage(Joined, SecretKnown, SecretKnown, MoreSecrets(Joined.cloud, "p", 1), Launch, Some(("p", 1))));
  }

  lemma LaunchJoinedStep(cloud: Cloud)
    requires cloud == Cloud(map[], {}, Entries("p", Below(1)), false, {})
    ensures var t, e := Stage(Joined, SecretKnown, SecretKnown, cloud, Launch, Some(("p", 1))), Launched("i-1", Pending, LaunchOk);
            Moves(t, e, Cleared(Settle, NodeMachine("p", 1).(instanceState := None), NodeCloud(Entries("p", Below(1)))))
  {}

  lemma LaunchJoined()
    ensures Runs(Beginning(Secretive),
                 Cleared(Settle, NodeMachine("p", 1).(instanceState := None), NodeCloud(Entries("p", Below(1)))))
  {
    ReachJoined();
    var cloud := MoreSecrets(Joined.cloud, "p", 1);
    assert cloud.secrets == Entries("p", Below(1));
    LaunchJoinedStep(cloud);
    More(Beginning(Secretive), Stage(Joined, SecretKnown, SecretKnown, cloud, Launch, Some(("p", 1))), Launched("i-1", Pending, LaunchOk),
         Cleared(Settle, NodeMachine("p", 1).(instanceState := None), NodeCloud(Entries("p", Below(1)))));
  }

  lemma DropNodeSecretsStep()
    ensures var t, e := Cleared(DropSecrets(FromNormal), NodeMachine("p", 1), NodeCloud(Entries("p", Below(1)))), SecretsDeleted(Below(1), true);
            Moves(t, e, Cleared(DropObject(FromNormal), NodeMachine("", 0), NodeCloud({})))
  {
    assert Below(1) * Below(1) == Below(1);
  }

  lemma CloseClearedStep()
    ensures var t := Cleared(Close, NodeMachine("", 0), NodeCloud({}));
            Moves(t, Patched(Delivered), State(Secretive, Some(NodeMachine("p", 1)), true, NodeCloud({}), Idle))
  {}

  lemma SettleNodeStep(secrets: set<SecretEntry>)
    ensures var t := Cleared(Settle, NodeMachine("p", 1).(instanceState := None), NodeCloud(secrets));
            Moves(t, Call(true), Cleared(DropRaw(FromNormal), NodeMachine("p", 1), NodeCloud(secrets)))
  {}

  lemma DropJoined()
    ensures Runs(Beginning(Secretive), Cleared(DropObject(FromNormal), NodeMachine("", 0), NodeCloud({})))
  {
    var s0, entries := Beginning(Secretive), Entries("p", Below(1));
    LaunchJoined();
    var raw := Cleared(DropRaw(FromNormal), NodeMachine("p", 1), NodeCloud(entries));
    SettleNodeStep(entries);
    More(s0, Cleared(Settle, NodeMachine("p", 1).(instanceState := None), NodeCloud(entries)), Call(true), raw);
    var drop := Cleared(DropSecrets(FromNormal), NodeMachine("p", 1), NodeCloud(entries));
    More(s0, raw, Call(true), drop);
    DropNodeSecretsStep();
    More(s0, drop, SecretsDeleted(Below(1), true), Cleared(DropObject(FromNormal), NodeMachine("", 0), NodeCloud({})));
  }

  lemma NoNodeObjectStep()
    ensures var t := Cleared(DropObject(FromNormal), NodeMachine("", 0), NodeCloud({}));
            Moves(t, Tick, Cleared(Finish, NodeMachine("", 0), NodeCloud({})))
  {}

  lemma ClearedPass()
    ensures Runs(Beginning(Secretive), Cleared(Close, NodeMachine("", 0), NodeCloud({})))
  {
    var s0, finish := Beginning(Secretive), Cleared(Finish, NodeMachine("", 0), NodeCloud({}));
    DropJoined();
    NoNodeObjectStep();
    More(s0, Cleared(DropObject(FromNormal), NodeMachine("", 0), NodeCloud({})), Tick, finish);
    More(s0, finish, Call(true), Cleared(Close, NodeMachine("", 0), NodeCloud({})));
  }

  /** The last patch is delivered, and the persisted object still names a prefix whose secrets are gone. */
  lemma PrefixOutlivesSecrets()
    ensures exists s0, events :: && Init(s0) && Replay(s0, events).Some? && AllSmooth(events)
                                 && Replay(s0, events).value.pass.Idle? && Replay(s0, events).value.cloud.secrets == {}
                                 && Replay(s0, events).value.store.Some? && Replay(s0, events).value.store.value.secretPrefix == "p"
  {
    var s0, t := Beginning(Secretive), State(Secretive, Some(NodeMachine("p", 1)), true, NodeCloud({}), Idle);
    ClearedPass();
    CloseClearedStep();
    More(s0, Cleared(Close, NodeMachine("", 0), NodeCloud({})), Patched(Delivered), t);
    var events :| RunsBy(s0, events, t);
  }

  // ---------------------------------------------------------------------------------------------
  // A dedicated host that is never released
  // ---------------------------------------------------------------------------------------------

  const Hosted := Config(false, Plain, false, true)

  /** A pass that allocated its host, about to launch. */
  function HostAllocatedAt(pc: PC, mem: AWSMachine, cloud: Cloud): State {
    Stage(Beginning(Hosted), NewMachine.(finalizer := true), mem, cloud, pc, None)
  }

  const OneHost := Cloud(map[], {}, {}, false, {"h-1"})
  const HostKnown := NewMachine.(finalizer := true, host := Some("h-1"))

  lemma AllocateStep()
    ensures var t, e := HostAllocatedAt(AllocateHost, NewMachine.(finalizer := true), Beginning(Hosted).cloud), HostAllocated("h-1", true);
            Moves(t, e, HostAllocatedAt(Launch, HostKnown, OneHost))
  {
    assert Beginning(Hosted).cloud.hosts + {"h-1"} == {"h-1"};
  }

  lemma AllocateOnly()
    ensures Runs(Beginning(Hosted), HostAllocatedAt(Launch, HostKnown, OneHost))
  {
    var s0, m := Beginning(Hosted), NewMachine.(finalizer := true);
    FirstOf(Hosted);
    PlainData(s0);
    ThenPass(s0, s0, HostAllocatedAt(AllocateHost, m, s0.cloud));
    AllocateStep();
    More(s0, HostAllocatedAt(AllocateHost, m, s0.cloud), HostAllocated("h-1", true), HostAllocatedAt(Launch, HostKnown, OneHost));
  }

  lemma FailedLaunch()
    ensures Runs(Beginning(Hosted), State(Hosted, Some(HostKnown), false, OneHost, Idle))
  {
    var s0 := Beginning(Hosted);
    AllocateOnly();
    More(s0, HostAllocatedAt(Launch, HostKnown, OneHost), LaunchFailed(false), HostAllocatedAt(Close, HostKnown, OneHost));
    ClosePass(s0, s0, NewMachine.(finalizer := true), HostKnown, OneHost, None);
  }

  /** What it takes to leave a recorded host behind: the object goes and the host stays. */
  ghost predicate LeavesHost(launched: set<InstanceId>) {
    exists s0, s, h ::
      && Runs(s0, s) && s.cfg.dynamicHost && s.store.Some? && s.store.value.host == Some(h)
      && Runs(s0, Removed(s)) && h in Removed(s).cloud.hosts && s.cloud.created == launched
  }

  /** The host is recorded and the launch fails; the deletion pass finds no instance and releases nothing. */
  lemma HostOutlivesAbsentInstance()
    ensures LeavesHost({})
  {
    var s := State(Hosted, Some(HostKnown), false, OneHost, Idle);
    FailedLaunch();
    DeleteMissing(Beginning(Hosted), s);
    assert Runs(Beginning(Hosted), s) && Runs(Beginning(Hosted), Removed(s)) && "h-1" in Removed(s).cloud.hosts;
  }

  const BothKnown := HostKnown.(providerID := For("i-1"), instanceID := Some("i-1"))

  function OneInstance(instances: map<InstanceId, InstanceState>): Cloud {
    Cloud(instances, {"i-1"}, {}, false, {"h-1"})
  }

  lemma LaunchHosted()
    ensures Runs(Beginning(Hosted), State(Hosted, Some(BothKnown), false, OneInstance(map["i-1" := Pending]), Idle))
  {
    var s0 := Beginning(Hosted);
    var cloud := OneInstance(map["i-1" := Pending]);
    AllocateOnly();
    More(s0, HostAllocatedAt(Launch, HostKnown, OneHost), Launched("i-1", Pending, ErrorRecorded), HostAllocatedAt(Close, BothKnown, cloud));
    ClosePass(s0, s0, NewMachine.(finalizer := true), BothKnown, cloud, None);
  }

  /** The instance terminates and EC2 forgets it. */
  lemma ForgetHosted()
    ensures Runs(Beginning(Hosted), State(Hosted, Some(BothKnown), false, OneInstance(map[]), Idle))
  {
    var s0 := Beginning(Hosted);
    LaunchHosted();
    var s := State(Hosted, Some(BothKnown), false, OneInstance(map["i-1" := Pending]), Idle);
    var t := State(Hosted, Some(BothKnown), false, OneInstance(map["i-1" := Terminated]), Idle);
    assert map["i-1" := Pending]["i-1" := Terminated] == map["i-1" := Terminated];
    More(s0, s, InstanceMoves("i-1", Terminated), t);
    assert map["i-1" := Terminated] - {"i-1"} == map[];
    More(s0, t, InstanceVanishes("i-1"), State(Hosted, Some(BothKnown), false, OneInstance(map[]), Idle));
  }

  /** The same with an instance that was launched and recorded, and that EC2 has forgotten when the pass looks. */
  lemma HostOutlivesLaunchedInstance()
    ensures LeavesHost({"i-1"})
  {
    var s := State(Hosted, Some(BothKnown), false, OneInstance(map[]), Idle);
    ForgetHosted();
    DeleteMissing(Beginning(Hosted), s);
    assert Runs(Beginning(Hosted), s) && Runs(Beginning(Hosted), Removed(s)) && "h-1" in Removed(s).cloud.hosts;
  }

  // ---------------------------------------------------------------------------------------------
  // A bootstrap object that outlives its machine
  // ---------------------------------------------------------------------------------------------

  const Storing := Config(false, Ignition(ClusterObjectStore), true, false)

  const Uploaded := State(Storing, Some(NewMachine.(finalizer := true)), false, Cloud(map[], {}, {}, true, {}), Idle)

  /** One pass uploads the object and fails to launch. */
  lemma UploadOnly()
    ensures Runs(Beginning(Storing), Uploaded)
  {
    var s0 := Beginning(Storing);
    FirstOf(Storing);
    StoredData(s0);
    ThenPass(s0, s0, Stage(s0, Finalizing(s0), Finalizing(s0), Uploaded.cloud, Launch, None));
    FailLaunch(s0, s0, Finalizing(s0), Uploaded.cloud, None);
  }

  /** The machine is deleted when its Machine names no bootstrap data: the uploaded object stays. */
  lemma ObjectOutlivesMachine()
    ensures exists s0, events :: && Init(s0) && Replay(s0, events).Some? && AllSmooth(events)
                                 && Replay(s0, events).value.store.None? && Replay(s0, events).value.cloud.bucketObject
  {
    UploadOnly();
    DeleteMissing(Beginning(Storing), Uploaded);
    var events :| RunsBy(Beginning(Storing), events, Removed(Uploaded));
    assert Removed(Uploaded).cloud.bucketObject;
  }
}
