/** Dedicated hosts: which are released with their machine, and which stay allocated. */
module MachineHosts {
  import opened Basics
  import opened MachineProtocol
  import opened MachineInvariant
  import opened MachineFrames
  import opened MachineSafety

  // ---------------------------------------------------------------------------------------------
  // The recorded host
  // ---------------------------------------------------------------------------------------------

  /** The persisted object names this host. */
  predicate HostRecorded(s: State, h: HostId) {
    s.store.Some? && s.store.value.host == Some(h)
  }

  /** The host is recorded at most once, and a deleting pass changes nothing about it. */
  predicate HostInv(s: State) {
    s.pass.Active? ==>
      && (s.store.Some? ==> s.store.value.host == s.pass.before.host || s.store.value.host == s.pass.mem.host)
      && (s.pass.before.host.Some? || s.pass.mem.deleted ==> s.pass.mem.host == s.pass.before.host)
  }

  lemma AllocatingIsLive(s: State, e: Event)
    requires Inv(s) && ControlShape(s) && CallEnabled(s, e) && e.HostAllocated?
    ensures s.pass.pc.AllocateHost? && !s.pass.mem.deleted && s.pass.mem.host.None?
  {}

  lemma HostCall(s: State, e: Event)
    requires Inv(s) && HostInv(s) && ControlShape(s) && CallEnabled(s, e) && !EnvironmentEvent(e) && !e.Crash?
    ensures HostInv(ApplyCall(s, e))
  {
    StoreEffect(s, e);
    FrameCall(s, e);
    if e.HostAllocated? {
      AllocatingIsLive(s, e);
    }
  }

  lemma HostStep(s: State, e: Event)
    requires Inv(s) && HostInv(s) && Enabled(s, e)
    ensures HostInv(Apply(s, e))
  {
    if s.pass.Active? && !EnvironmentEvent(e) && !e.Crash? {
      HostCall(s, e);
    } else {
      StoreEffect(s, e);
    }
  }

  lemma {:induction false} HostRun(s0: State, events: seq<Event>)
    requires Init(s0) && Replay(s0, events).Some?
    ensures HostInv(Replay(s0, events).value) && Inv(Replay(s0, events).value)
  {
    InvInit(s0);
    InvFrom(s0, events);
    if events != [] {
      var last := |events| - 1;
      InvFrom(s0, events[..last]);
      HostRun(s0, events[..last]);
      HostStep(Replay(s0, events[..last]).value, events[last]);
    }
  }

  lemma HostReachable(s: State)
    requires Reachable(s)
    ensures HostInv(s) && Inv(s)
  {
    var s0, events :| Init(s0) && Replay(s0, events) == Some(s);
    HostRun(s0, events);
  }

  // ---------------------------------------------------------------------------------------------
  // One deletion pass
  // ---------------------------------------------------------------------------------------------

  /** Past the lookup of reconcileDelete. */
  predicate Looked(pc: PC) {
    pc.Close? || (IsDeleting(pc) && !pc.FindDeleted?)
  }

  /** Since the pass began, hosts have changed only if it found an instance. */
  predicate HostsKept(hosts: set<HostId>, t: State) {
    t.pass.Active? && t.pass.mem.deleted && (t.cloud.hosts == hosts || (t.pass.found.Found? && Looked(t.pass.pc)))
  }

  lemma LookedMoves(s: State, e: Event)
    requires ControlShape(s) && CallEnabled(s, e) && Looked(s.pass.pc) && !s.pass.pc.Close?
    ensures Looked(ApplyCall(s, e).pass.pc) && !e.LookupDone? && !e.Launched?
  {}

  lemma ReleasingFound(s: State, e: Event)
    requires Inv(s) && ControlShape(s) && CallEnabled(s, e) && e.HostReleased?
    ensures s.pass.found.Found? && Looked(s.pass.pc)
  {}

  lemma HostsKeptStep(hosts: set<HostId>, s: State, e: Event)
    requires Inv(s) && HostsKept(hosts, s) && Enabled(s, e) && Apply(s, e).pass.Active?
    ensures HostsKept(hosts, Apply(s, e))
  {
    if !EnvironmentEvent(e) {
      FrameCall(s, e);
      if Looked(s.pass.pc) {
        LookedMoves(s, e);
      }
      if e.HostReleased? {
        ReleasingFound(s, e);
      } else if e.HostAllocated? {
        AllocatingIsLive(s, e);
      }
    }
  }

  lemma {:induction false} HostsKeptRun(hosts: set<HostId>, s: State, events: seq<Event>)
    requires Inv(s) && HostsKept(hosts, s) && Replay(s, events).Some? && Replay(s, events).value.pass.Active?
    requires forall k | 0 <= k < |events| :: !events[k].Begin?
    ensures HostsKept(hosts, Replay(s, events).value)
  {
    if events != [] {
      var last := |events| - 1;
      var u := Replay(s, events[..last]).value;
      InvFrom(s, events[..last]);
      if u.pass.Active? {
        HostsKeptRun(hosts, s, events[..last]);
        HostsKeptStep(hosts, u, events[last]);
      }
    }
  }

  /** The pass's view of the host is what was persisted when it began. */
  lemma {:induction false} BeforeKept(s: State, events: seq<Event>)
    requires s.pass.Active? && Replay(s, events).Some? && Replay(s, events).value.pass.Active?
    requires forall k | 0 <= k < |events| :: !events[k].Begin?
    ensures Replay(s, events).value.pass.before == s.pass.before && Replay(s, events).value.cfg == s.cfg
  {
    if events != [] {
      var last := |events| - 1;
      var u := Replay(s, events[..last]).value;
      if u.pass.Active? {
        BeforeKept(s, events[..last]);
        if !EnvironmentEvent(events[last]) {
          FrameCall(u, events[last]);
        }
      }
    }
  }

  /**
   A deletion pass begins in s and goes on to t, where its last patch removes an object that records a dynamic host.
   The host stays allocated if and only if the pass found no instance and the host was allocated when it began.
   */
  lemma HostLeftIff(s: State, dataRef: bool, events: seq<Event>, e: Event, h: HostId)
    requires Reachable(s) && s.pass.Idle? && HostRecorded(s, h) && s.store.value.deleted && s.cfg.dynamicHost
    requires forall k | 0 <= k < |events| :: !events[k].Begin?
    requires Replay(ApplyBegin(s, dataRef), events).Some?
    requires var t := Replay(ApplyBegin(s, dataRef), events).value;
             t.pass.Active? && Enabled(t, e) && Apply(t, e).store.None?
    ensures var t := Replay(ApplyBegin(s, dataRef), events).value;
            h in Apply(t, e).cloud.hosts <==> t.pass.found.Missing? && h in s.cloud.hosts
  {
    var b := ApplyBegin(s, dataRef);
    assert b == Apply(s, Begin(dataRef));
    ReachableStep(s, Begin(dataRef));
    InvReachable(b);
    var t := Replay(b, events).value;
    ReachableFrom(b, events);
    HostReachable(t);
    HostsKeptRun(s.cloud.hosts, b, events);
    BeforeKept(b, events);
    RemovalOfHost(t, e, h);
  }

  lemma RemovalOfHost(t: State, e: Event, h: HostId)
    requires Reachable(t) && t.pass.Active? && t.pass.before.deleted && t.pass.before.host == Some(h) && t.cfg.dynamicHost
    requires Enabled(t, e) && Apply(t, e).store.None?
    requires HostInv(t) && Inv(t) && t.store.Some?
    ensures t.pass.found.Missing? || (t.pass.found.Found? && h !in t.cloud.hosts)
    ensures Apply(t, e).cloud.hosts == t.cloud.hosts
  {
    FinalizerLeaves(t, e);
    StoreEffect(t, e);
    if !EnvironmentEvent(e) && !e.Crash? {
      FrameCall(t, e);
    }
  }

  // ---------------------------------------------------------------------------------------------
  // Hosts that nobody records
  // ---------------------------------------------------------------------------------------------

  /** The host is allocated, and neither the persisted object nor a pass knows of it. */
  predicate HostUnknown(s: State, h: HostId) {
    && h in s.cloud.hosts && !HostRecorded(s, h)
    && (s.pass.Active? ==> s.pass.mem.host != Some(h) && s.pass.before.host != Some(h))
  }

  lemma HostUnknownStep(s: State, e: Event, h: HostId)
    requires HostUnknown(s, h) && Enabled(s, e)
    ensures HostUnknown(Apply(s, e), h)
  {
    StoreEffect(s, e);
    if s.pass.Active? && !EnvironmentEvent(e) && !e.Crash? {
      FrameCall(s, e);
      FreshHost(s, e);
    }
  }

  lemma FreshHost(s: State, e: Event)
    requires ControlShape(s) && CallEnabled(s, e)
    ensures e.HostAllocated? ==> e.host !in s.cloud.hosts
    ensures e.HostReleased? ==> s.pass.mem.host.Some?
  {}

  /** A host nobody knows of stays allocated for ever. */
  lemma {:induction false} UnknownHostForever(s: State, events: seq<Event>, h: HostId)
    requires HostUnknown(s, h) && Replay(s, events).Some?
    ensures HostUnknown(Replay(s, events).value, h)
  {
    if events != [] {
      var last := |events| - 1;
      UnknownHostForever(s, events[..last], h);
      HostUnknownStep(Replay(s, events[..last]).value, events[last], h);
    }
  }

  /** An allocation that is reported as failed, or followed by a crash, leaves a host that nobody knows of. */
  lemma AllocationForgotten(s: State, e: Event)
    requires Reachable(s) && s.pass.Active? && s.pass.pc.AllocateHost? && Enabled(s, e) && e.HostAllocated?
    ensures HostUnknown(Apply(s, e), e.host) <==> !e.ok
    ensures HostUnknown(Apply(Apply(s, e), Crash), e.host)
  {
    HostReachable(s);
    FrameCall(s, e);
    StoreEffect(s, e);
    AllocatingIsLive(s, e);
  }

  /** At the end of the pass that allocated it, the host is forgotten if and only if the status patch is lost. */
  lemma AllocationPatchedIff(s: State, o: PatchOutcome, h: HostId)
    requires Reachable(s) && s.pass.Active? && s.pass.pc.Close? && Enabled(s, Patched(o))
    requires s.pass.mem.host == Some(h) && s.pass.before.host.None? && h in s.cloud.hosts && !HostRecorded(s, h)
    requires Apply(s, Patched(o)).store.Some?
    ensures HostUnknown(Apply(s, Patched(o)), h) <==> !o.status
  {
    StoreEffect(s, Patched(o));
    FrameCall(s, Patched(o));
  }

  // ---------------------------------------------------------------------------------------------
  // Runs that know all their hosts
  // ---------------------------------------------------------------------------------------------

  /** Every allocated host is recorded in the object, or in the memory of the pass. */
  predicate HostsKnown(s: State) {
    forall h | h in s.cloud.hosts :: HostRecorded(s, h) || (s.pass.Active? && s.pass.mem.host == Some(h))
  }

  /** The host the pass has in memory, if it is still allocated, is the persisted one. */
  predicate HostPersisted(s: State)
    requires s.pass.Active?
  {
    s.pass.mem.host.Some? && s.pass.mem.host.value in s.cloud.hosts ==> HostRecorded(s, s.pass.mem.host.value)
  }

  /** The last patch of the pass drops the finalizer. */
  predicate DropsFinalizer(s: State, e: Event)
    requires s.pass.Active?
  {
    s.pass.pc.Close? && e.Patched? && e.o.spec && s.pass.before.finalizer && !s.pass.mem.finalizer
  }

  /**
   A step loses track of a host in three ways: the allocation is reported as failed; the pass ends, by a crash or by
   losing its last status patch, with a host that is not persisted; or the object goes while its host is allocated.
   */
  predicate KeepsHosts(s: State, e: Event) {
    s.pass.Active? ==>
      && (e.HostAllocated? ==> e.ok)
      && (e.Crash? || (s.pass.pc.Close? && e.Patched? && !e.o.status) ==> HostPersisted(s))
      && (DropsFinalizer(s, e) && s.pass.mem.host.Some? ==> s.pass.mem.host.value !in s.cloud.hosts)
  }

  lemma KnownEnvironment(s: State, e: Event)
    requires Inv(s) && HostsKnown(s) && EnvironmentEvent(e) && EnvironmentEnabled(s, e)
    ensures HostsKnown(ApplyEnvironment(s, e))
  {}

  /** What a pass knows at the end is at most one host. */
  lemma OneKnown(s: State, h: HostId)
    requires HostInv(s) && HostsKnown(s) && s.pass.Active? && h in s.cloud.hosts
    ensures s.pass.mem.host == Some(h) || (HostRecorded(s, h) && s.pass.before.host == Some(h) && s.pass.mem.host == Some(h))
  {}

  lemma KnownClosed(s: State, e: Event)
    requires Inv(s) && HostInv(s) && HostsKnown(s) && s.pass.Active? && s.pass.pc.Close? && CallEnabled(s, e)
    ensures HostsKnown(ApplyCall(s, e)) <==> KeepsHosts(s, e)
  {
    forall h | h in s.cloud.hosts
      ensures s.pass.mem.host == Some(h)
    {
      OneKnown(s, h);
    }
    ClosedHost(s, e);
  }

  /** The persisted host after the last patch. */
  lemma ClosedHost(s: State, e: Event)
    requires Inv(s) && HostInv(s) && s.pass.Active? && s.pass.pc.Close? && CallEnabled(s, e)
    ensures ApplyCall(s, e).cloud.hosts == s.cloud.hosts && ApplyCall(s, e).pass.Idle?
    ensures DropsFinalizer(s, e) ==> ApplyCall(s, e).store.None?
    ensures !DropsFinalizer(s, e) && s.store.Some? ==>
              && ApplyCall(s, e).store.Some?
              && ApplyCall(s, e).store.value.host == if e.o.status then s.pass.mem.host else s.store.value.host
    ensures s.store.None? ==> ApplyCall(s, e).store.None? && !e.o.status
  {}

  lemma KnownCall(s: State, e: Event)
    requires Inv(s) && HostInv(s) && HostsKnown(s) && ControlShape(s) && CallEnabled(s, e) && !s.pass.pc.Close?
    ensures HostsKnown(ApplyCall(s, e)) <==> (e.HostAllocated? ==> e.ok)
  {
    FrameCall(s, e);
    forall h | h in s.cloud.hosts
      ensures s.pass.mem.host == Some(h)
    {
      OneKnown(s, h);
    }
    if e.HostAllocated? {
      assert s.cloud.hosts == {};
      assert e.host in ApplyCall(s, e).cloud.hosts;
    }
  }

  /** One step keeps every host known if and only if none of the three happens. */
  lemma StepKnownIff(s: State, e: Event)
    requires Inv(s) && HostInv(s) && HostsKnown(s) && Enabled(s, e)
    ensures HostsKnown(Apply(s, e)) <==> KeepsHosts(s, e)
  {
    if EnvironmentEvent(e) {
      KnownEnvironment(s, e);
    } else if s.pass.Active? {
      if e.Crash? {
        forall h | h in s.cloud.hosts
          ensures s.pass.mem.host == Some(h)
        {
          OneKnown(s, h);
        }
      } else if s.pass.pc.Close? {
        KnownClosed(s, e);
      } else {
        KnownCall(s, e);
      }
    }
  }

  predicate HostKeepingRun(s0: State, events: seq<Event>) {
    events == [] ||
    (var last := |events| - 1;
     && HostKeepingRun(s0, events[..last])
     && (Replay(s0, events[..last]).Some? ==> KeepsHosts(Replay(s0, events[..last]).value, events[last])))
  }

  predicate KnownThroughout(s0: State, events: seq<Event>) {
    && (Replay(s0, events).Some? ==> HostsKnown(Replay(s0, events).value))
    && (events != [] ==> KnownThroughout(s0, events[..|events| - 1]))
  }

  /** All hosts stay known throughout a run if and only if no step of it loses one in these ways. */
  lemma {:induction false} HostsKnownIff(s0: State, events: seq<Event>)
    requires Init(s0) && Replay(s0, events).Some?
    ensures KnownThroughout(s0, events) <==> HostKeepingRun(s0, events)
  {
    if events != [] {
      var last := |events| - 1;
      HostRun(s0, events[..last]);
      HostsKnownIff(s0, events[..last]);
      if HostKeepingRun(s0, events[..last]) {
        StepKnownIff(Replay(s0, events[..last]).value, events[last]);
      }
    }
  }

  /** In such a run no host outlives the object. */
  lemma NoHostLeft(s0: State, events: seq<Event>)
    requires Init(s0) && Replay(s0, events).Some? && HostKeepingRun(s0, events)
    requires Replay(s0, events).value.pass.Idle? && Replay(s0, events).value.store.None?
    ensures Replay(s0, events).value.cloud.hosts == {}
  {
    HostsKnownIff(s0, events);
  }
}
