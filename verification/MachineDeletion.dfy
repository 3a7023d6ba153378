/** What is known about the recorded instance when its machine's object goes. */
module MachineDeletion {
  import opened Basics
  import opened MachineProtocol
  import opened MachineInvariant
  import opened MachineFrames
  import opened MachineSafety

  /** The instance is not in EC2, or only as terminated. */
  predicate GoneOrTerminated(cloud: Cloud, i: InstanceId) {
    i in cloud.instances ==> cloud.instances[i].Terminated?
  }

  /** What a deleting pass has seen of the instance still holds. */
  predicate Seen(s: State) {
    s.pass.Active? && s.pass.mem.deleted ==>
      && (s.pass.found.Missing? && s.pass.mem.providerID.For? ==> GoneOrTerminated(s.cloud, s.pass.mem.providerID.id))
      && (s.pass.found.Found? && s.pass.found.state.Terminated? ==> GoneOrTerminated(s.cloud, s.pass.found.id))
      && (s.pass.found.Found? && s.pass.mem.providerID.Empty? ==> IsRunning(s.pass.found.state))
  }

  /** Only a launch adds an instance, and a terminated one never comes back. */
  lemma InstancesEffect(s: State, e: Event)
    requires Enabled(s, e) && !e.Launched?
    ensures forall i | GoneOrTerminated(s.cloud, i) :: GoneOrTerminated(Apply(s, e).cloud, i)
  {
    CallEffect(s, e);
    if e.TerminateCalled? {
      TerminateSpares(s, e);
    }
  }

  /** TerminateInstance has no effect on a terminated instance. */
  lemma TerminateSpares(s: State, e: Event)
    requires Enabled(s, e) && e.TerminateCalled?
    ensures forall i | GoneOrTerminated(s.cloud, i) :: GoneOrTerminated(Apply(s, e).cloud, i)
  {
    CallEffect(s, e);
    assert s.pass.Active? && s.pass.pc.Terminate?;
  }

  /** A deleting pass looks once, and launches nothing. */
  lemma LookOnce(s: State, e: Event)
    requires Inv(s) && s.pass.Active? && s.pass.mem.deleted && e.LookupDone? && Enabled(s, e)
    ensures Seen(Apply(s, e))
  {}

  lemma SeenKept(s: State, e: Event, t: State)
    requires s.pass.Active? && Seen(s) && PassFrame(s, e, t) && !e.LookupDone? && !e.Launched?
    requires t.pass.Active? ==> t.pass.mem.providerID == s.pass.mem.providerID
    requires forall i | GoneOrTerminated(s.cloud, i) :: GoneOrTerminated(t.cloud, i)
    ensures Seen(t)
  {}

  lemma SeenEnvironment(s: State, e: Event)
    requires Seen(s) && EnvironmentEvent(e) && EnvironmentEnabled(s, e)
    ensures Seen(ApplyEnvironment(s, e))
  {}

  lemma SeenDeleting(s: State, e: Event)
    requires Inv(s) && Seen(s) && ControlShape(s) && CallEnabled(s, e) && !EnvironmentEvent(e) && !e.Crash?
    requires s.pass.mem.deleted && !e.LookupDone?
    ensures Seen(ApplyCall(s, e))
  {
    FrameCall(s, e);
    InvStep(s, e);
    LaunchEffect(s, e);
    InstancesEffect(s, e);
    SeenKept(s, e, ApplyCall(s, e));
  }

  lemma SeenStep(s: State, e: Event)
    requires Inv(s) && Seen(s) && Enabled(s, e)
    ensures Seen(Apply(s, e))
  {
    if EnvironmentEvent(e) {
      SeenEnvironment(s, e);
    } else if s.pass.Active? && !e.Crash? {
      if !s.pass.mem.deleted {
        FrameCall(s, e);
      } else if e.LookupDone? {
        LookOnce(s, e);
      } else {
        SeenDeleting(s, e);
      }
    }
  }

  lemma {:induction false} SeenRun(s0: State, events: seq<Event>)
    requires Init(s0) && Replay(s0, events).Some?
    ensures Seen(Replay(s0, events).value) && Inv(Replay(s0, events).value)
  {
    InvInit(s0);
    InvFrom(s0, events);
    if events != [] {
      var last := |events| - 1;
      InvFrom(s0, events[..last]);
      SeenRun(s0, events[..last]);
      SeenStep(Replay(s0, events[..last]).value, events[last]);
    }
  }

  lemma SeenReachable(s: State)
    requires Reachable(s)
    ensures Seen(s) && Inv(s)
  {
    var s0, events :| Init(s0) && Replay(s0, events) == Some(s);
    SeenRun(s0, events);
  }

  /**
   When the object goes, the instance whose ID it records is gone or terminated, not merely on its way out, and
   whoever else may have touched it.
   */
  lemma RecordedInstanceGone(s: State, e: Event, i: InstanceId)
    requires Reachable(s) && Enabled(s, e) && Recorded(s, i) && Apply(s, e).store.None?
    requires !s.cfg.pool || Finalized(s)
    ensures GoneOrTerminated(Apply(s, e).cloud, i)
  {
    SeenReachable(s);
    FinalizerLeaves(s, e);
    StoreEffect(s, e);
  }
}
