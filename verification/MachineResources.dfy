/** Which runs leave no bootstrap secret behind. */
module MachineResources {
  import opened Basics
  import opened MachineProtocol
  import opened MachineInvariant
  import opened MachineFrames
  import opened MachineSafety

  // ---------------------------------------------------------------------------------------------
  // Secrets
  // ---------------------------------------------------------------------------------------------

  /** Deleting what m records would delete every one of these entries. */
  predicate CoveredBy(m: AWSMachine, secrets: set<SecretEntry>) {
    forall x | x in secrets :: x.0 == m.secretPrefix && x.1 < m.secretCount
  }

  /** The persisted object records every secret entry that exists. */
  predicate SafelyRecorded(s: State) {
    if s.store.Some? then CoveredBy(s.store.value, s.cloud.secrets) else s.cloud.secrets == {}
  }

  /** The record that counts, in memory during a pass and persisted between passes, covers every secret. */
  predicate Covered(s: State) {
    if s.pass.Active? then CoveredBy(s.pass.mem, s.cloud.secrets) else SafelyRecorded(s)
  }

  /** The persisted record takes in what the pass records in memory. */
  predicate PersistedCovers(s: State)
    requires s.pass.Active?
  {
    || s.pass.mem.secretPrefix == ""
    || (&& s.store.Some?
        && s.store.value.secretPrefix == s.pass.mem.secretPrefix
        && s.pass.mem.secretCount <= s.store.value.secretCount)
  }

  /**
   A step loses track of a secret in two ways.  The pass ends, by a crash or by losing its last patch, with a record in
   memory that is not persisted; or a retry writes fewer entries than exist, and the smaller count replaces the larger.
   */
  predicate KeepsRecord(s: State, e: Event) {
    s.pass.Active? ==>
      && (e.Crash? || (s.pass.pc.Close? && e.Patched? && !e.o.spec) ==> PersistedCovers(s))
      && (e.SecretsCreated? ==> e.chunks == 0 || forall x | x in s.cloud.secrets :: x.1 < e.chunks)
  }

  // ---------------------------------------------------------------------------------------------
  // The record in memory against the persisted one
  // ---------------------------------------------------------------------------------------------

  /** Between creating secrets and the end of the patch, the record may be ahead; then its last entry exists. */
  predicate RecordAhead(s: State)
    requires s.pass.Active?
  {
    PersistedCovers(s) || (s.pass.mem.secretCount > 0 && (s.pass.mem.secretPrefix, s.pass.mem.secretCount - 1) in s.cloud.secrets)
  }

  predicate RecordInv(s: State) {
    && (s.store.Some? && s.store.value.secretPrefix != "" ==> s.store.value.finalizer)
    && (s.pass.Active? && s.pass.mem.secretPrefix != "" ==>
          if s.pass.pc.PatchSecrets? || s.pass.pc.Close? then RecordAhead(s)
          else s.store.Some? && SameSecrets(s.store.value, s.pass.mem))
  }

  lemma RecordEnvironment(s: State, e: Event)
    requires Inv(s) && RecordInv(s) && EnvironmentEvent(e) && EnvironmentEnabled(s, e)
    ensures RecordInv(ApplyEnvironment(s, e))
  {}

  lemma RecordCreated(s: State, e: Event)
    requires Inv(s) && RecordInv(s) && s.pass.Active? && s.pass.pc.CreateSecrets? && CallEnabled(s, e)
    ensures RecordInv(StepUserData(s, e))
  {
    if e.SecretsCreated? && e.chunks > 0 {
      assert (e.prefix, e.chunks - 1) in Entries(e.prefix, Below(e.chunks));
    }
  }

  lemma RecordPatchSecrets(s: State, e: Event)
    requires Inv(s) && RecordInv(s) && s.pass.Active? && s.pass.pc.PatchSecrets? && CallEnabled(s, e)
    ensures RecordInv(StepUserData(s, e))
  {}

  lemma RecordClosed(s: State, e: Event)
    requires Inv(s) && RecordInv(s) && s.pass.Active? && s.pass.pc.Close? && CallEnabled(s, e)
    ensures RecordInv(ApplyCall(s, e))
  {}

  lemma RecordDrop(s: State, e: Event)
    requires Inv(s) && RecordInv(s) && s.pass.Active? && s.pass.pc.DropSecrets? && CallEnabled(s, e)
    ensures RecordInv(StepDrop(s, e))
  {}

  /** A patch other than these two has no secrets to send. */
  lemma RecordPatch(s: State, o: PatchOutcome)
    requires Inv(s) && RecordInv(s) && s.pass.Active? && IsPatch(s.pass.pc) && !s.pass.pc.PatchSecrets?
    ensures var store := PatchedStore(s.store, s.pass.before, s.pass.mem, o);
            && (store.Some? && store.value.secretPrefix != "" ==> store.value.finalizer)
            && (s.pass.mem.secretPrefix != "" ==> store.Some? && SameSecrets(store.value, s.pass.mem))
  {}

  /** Calls that leave secrets and record alone. */
  lemma RecordKept(s: State, e: Event, t: State)
    requires RecordInv(s) && s.pass.Active? && t.pass.Active? && !t.pass.pc.PatchSecrets?
    requires !s.pass.pc.PatchSecrets? && !s.pass.pc.Close?
    requires SameSecrets(t.pass.mem, s.pass.mem) && t.cloud.secrets == s.cloud.secrets
    requires t.store.Some? && t.store.value.secretPrefix != "" ==> t.store.value.finalizer
    requires s.pass.mem.secretPrefix != "" ==> t.store.Some? && SameSecrets(t.store.value, s.pass.mem)
    ensures RecordInv(t)
  {}

  lemma RecordCall(s: State, e: Event)
    requires Inv(s) && RecordInv(s) && ControlShape(s) && CallEnabled(s, e) && !EnvironmentEvent(e) && !e.Crash?
    ensures RecordInv(ApplyCall(s, e))
  {
    var pc := s.pass.pc;
    if pc.CreateSecrets? {
      RecordCreated(s, e);
    } else if pc.PatchSecrets? {
      RecordPatchSecrets(s, e);
    } else if pc.Close? {
      RecordClosed(s, e);
    } else if pc.DropSecrets? {
      RecordDrop(s, e);
    } else {
      FrameCall(s, e);
      StoreEffect(s, e);
      SecretsEffect(s, e);
      if e.Patched? {
        RecordPatch(s, e.o);
      }
      RecordKept(s, e, ApplyCall(s, e));
    }
  }

  lemma RecordStep(s: State, e: Event)
    requires Inv(s) && RecordInv(s) && Enabled(s, e)
    ensures RecordInv(Apply(s, e))
  {
    if EnvironmentEvent(e) {
      RecordEnvironment(s, e);
    } else if s.pass.Active? && !e.Crash? {
      RecordCall(s, e);
    }
  }

  // ---------------------------------------------------------------------------------------------
  // Exactly which steps keep every secret covered
  // ---------------------------------------------------------------------------------------------

  /** The create call: the record in memory covers everything if and only if no existing entry is beyond its new count. */
  lemma CreateCoveredIff(s: State, e: Event)
    requires Inv(s) && Covered(s) && s.pass.Active? && s.pass.pc.CreateSecrets?
    requires CallEnabled(s, e) && e.SecretsCreated?
    ensures Covered(ApplyCall(s, e)) <==> e.chunks == 0 || forall x | x in s.cloud.secrets :: x.1 < e.chunks
  {
    var t := StepUserData(s, e);
    assert s.cloud.secrets <= t.cloud.secrets;
  }

  /** A crash right after it leaves everything recorded if and only if the persisted record already took it in. */
  lemma CrashAfterCreateIff(s: State, e: Event)
    requires Inv(s) && Covered(s) && s.pass.Active? && s.pass.pc.CreateSecrets?
    requires CallEnabled(s, e) && e.SecretsCreated?
    ensures SafelyRecorded(ApplyCall(s, e).(pass := Idle)) <==>
            || e.chunks == 0
            || (s.store.value.secretPrefix == e.prefix && e.chunks <= s.store.value.secretCount)
  {
    var t := StepUserData(s, e);
    assert s.cloud.secrets <= t.cloud.secrets;
    if e.chunks > 0 {
      assert (e.prefix, e.chunks - 1) in t.cloud.secrets;
    }
  }

  /** The end of a pass without a delivered patch of the spec. */
  lemma EndedCoveredIff(s: State)
    requires Inv(s) && RecordInv(s) && s.pass.Active? && Covered(s)
    ensures SafelyRecorded(s) <==> PersistedCovers(s)
  {}

  lemma ClosedCovered(s: State, e: Event)
    requires Inv(s) && s.pass.Active? && Covered(s)
    requires s.pass.pc.Close? && CallEnabled(s, e) && e.o.spec
    ensures SafelyRecorded(ApplyCall(s, e))
  {}

  lemma ClosedUnsent(s: State, e: Event)
    requires Inv(s) && s.pass.Active? && s.pass.pc.Close? && CallEnabled(s, e) && !e.o.spec
    ensures SafelyRecorded(ApplyCall(s, e)) <==> SafelyRecorded(s)
  {}

  lemma DropCovered(s: State, e: Event)
    requires Inv(s) && Covered(s) && s.pass.Active? && s.pass.pc.DropSecrets? && CallEnabled(s, e)
    ensures Covered(StepDrop(s, e))
  {}

  lemma CallCoveredIff(s: State, e: Event)
    requires Inv(s) && RecordInv(s) && Covered(s) && ControlShape(s) && CallEnabled(s, e)
    requires !EnvironmentEvent(e) && !e.Crash?
    ensures Covered(ApplyCall(s, e)) <==> KeepsRecord(s, e)
  {
    var pc := s.pass.pc;
    if pc.Close? {
      if e.o.spec {
        ClosedCovered(s, e);
      } else {
        ClosedUnsent(s, e);
        EndedCoveredIff(s);
      }
    } else if e.SecretsCreated? {
      CreateCoveredIff(s, e);
    } else if pc.DropSecrets? {
      DropCovered(s, e);
    } else {
      FrameCall(s, e);
      SecretsEffect(s, e);
    }
  }

  /** One step keeps every secret covered if and only if it keeps the record. */
  lemma StepCoveredIff(s: State, e: Event)
    requires Inv(s) && RecordInv(s) && Covered(s) && Enabled(s, e)
    ensures Covered(Apply(s, e)) <==> KeepsRecord(s, e)
  {
    if EnvironmentEvent(e) || s.pass.Idle? {
    } else if e.Crash? {
      EndedCoveredIff(s);
    } else {
      CallCoveredIff(s, e);
    }
  }

  // ---------------------------------------------------------------------------------------------
  // Runs
  // ---------------------------------------------------------------------------------------------

  predicate RecordKeepingRun(s0: State, events: seq<Event>) {
    events == [] ||
    (var last := |events| - 1;
     && RecordKeepingRun(s0, events[..last])
     && (Replay(s0, events[..last]).Some? ==> KeepsRecord(Replay(s0, events[..last]).value, events[last])))
  }

  /** At every point of the run the record that counts covers every secret. */
  predicate CoveredThroughout(s0: State, events: seq<Event>) {
    && (Replay(s0, events).Some? ==> Covered(Replay(s0, events).value))
    && (events != [] ==> CoveredThroughout(s0, events[..|events| - 1]))
  }

  lemma {:induction false} RecordRun(s0: State, events: seq<Event>)
    requires Init(s0) && Replay(s0, events).Some?
    ensures RecordInv(Replay(s0, events).value) && Inv(Replay(s0, events).value)
  {
    InvInit(s0);
    InvFrom(s0, events);
    if events != [] {
      var last := |events| - 1;
      InvFrom(s0, events[..last]);
      RecordRun(s0, events[..last]);
      RecordStep(Replay(s0, events[..last]).value, events[last]);
    }
  }

  /** The secrets stay covered throughout a run if and only if each of its steps keeps the record. */
  lemma {:induction false} SecretsKeptIff(s0: State, events: seq<Event>)
    requires Init(s0) && Replay(s0, events).Some?
    ensures CoveredThroughout(s0, events) <==> RecordKeepingRun(s0, events)
  {
    if events != [] {
      var last := |events| - 1;
      RecordRun(s0, events[..last]);
      SecretsKeptIff(s0, events[..last]);
      if RecordKeepingRun(s0, events[..last]) {
        StepCoveredIff(Replay(s0, events[..last]).value, events[last]);
      }
    }
  }

  /** In such a run every secret entry is recorded between passes, and none outlives the object. */
  lemma NoSecretLeft(s0: State, events: seq<Event>)
    requires Init(s0) && Replay(s0, events).Some? && RecordKeepingRun(s0, events)
    requires Replay(s0, events).value.pass.Idle?
    ensures SafelyRecorded(Replay(s0, events).value)
  {
    SecretsKeptIff(s0, events);
  }

  // ---------------------------------------------------------------------------------------------
  // The persisted prefix after the deletion step
  // ---------------------------------------------------------------------------------------------

  /** The pass found no prefix when it started, and one is persisted now: it has recorded it itself. */
  predicate NewlyRecorded(s: State)
    requires s.pass.Active?
  {
    s.pass.before.secretPrefix == "" && s.store.Some? && s.store.value.secretPrefix != ""
  }

  /** The pass is past the deletion step and records no secret. */
  predicate Dropped(s: State) {
    s.pass.Active? && PastOrClosing(s.pass.pc) && s.pass.mem.secretPrefix == "" && s.pass.mem.secretCount == 0
  }

  /** Where the pass stays once it is past the deletion step. */
  predicate PastOrClosing(pc: PC) {
    PastDeletion(pc) || pc.Close?
  }

  lemma DroppedDeletes(s: State, e: Event)
    requires ControlShape(s) && CallEnabled(s, e) && IsDeleting(s.pass.pc)
    ensures PastOrClosing(StepDelete(s, e).pass.pc) && !e.SecretsCreated? && !e.SecretsDeleted?
  {}

  lemma DroppedObject(s: State, e: Event)
    requires s.pass.Active? && CallEnabled(s, e) && s.pass.pc.DropObject?
    ensures PastOrClosing(StepDrop(s, e).pass.pc) && !e.SecretsCreated? && !e.SecretsDeleted?
  {}

  lemma DroppedMoves(s: State, e: Event)
    requires Dropped(s) && ControlShape(s) && CallEnabled(s, e) && !s.pass.pc.Close?
    ensures PastOrClosing(ApplyCall(s, e).pass.pc)
    ensures !e.SecretsCreated? && !e.SecretsDeleted?
  {
    if IsDeleting(s.pass.pc) {
      DroppedDeletes(s, e);
    } else if s.pass.pc.DropObject? {
      DroppedObject(s, e);
    }
  }

  /** Until the pass ends, it stays so, and no patch changes whether the prefix is its own. */
  lemma DroppedStep(s: State, e: Event)
    requires Dropped(s) && Enabled(s, e) && !e.Begin? && Apply(s, e).pass.Active?
    ensures Dropped(Apply(s, e)) && Apply(s, e).pass.before == s.pass.before
    ensures Apply(s, e).store.Some? ==> s.store.Some? && (NewlyRecorded(Apply(s, e)) <==> NewlyRecorded(s))
  {
    StoreEffect(s, e);
    if !EnvironmentEvent(e) {
      FrameCall(s, e);
      DroppedMoves(s, e);
    }
  }

  lemma {:induction false} DroppedRun(s: State, events: seq<Event>)
    requires Dropped(s) && Replay(s, events).Some? && Replay(s, events).value.pass.Active?
    requires forall k | 0 <= k < |events| :: !events[k].Begin?
    ensures var t := Replay(s, events).value;
            && Dropped(t) && t.pass.before == s.pass.before
            && (t.store.Some? ==> s.store.Some? && (NewlyRecorded(t) <==> NewlyRecorded(s)))
  {
    if events != [] {
      var last := |events| - 1;
      var u := Replay(s, events[..last]).value;
      if u.pass.Idle? {
        StaysIdle(u, events[last]);
      } else {
        DroppedRun(s, events[..last]);
        DroppedStep(u, events[last]);
      }
    }
  }

  lemma StaysIdle(s: State, e: Event)
    requires s.pass.Idle? && Enabled(s, e) && !e.Begin?
    ensures Apply(s, e).pass.Idle?
  {}

  /**
   A pass gets past the deletion step with data that nobody needs, and its last patch is delivered.  The persisted
   prefix is then gone if and only if the pass did not itself record it: the patch is computed against what the pass
   had read, so that it says nothing about a prefix that came and went.
   */
  lemma PersistedPrefixIff(s: State, events: seq<Event>, o: PatchOutcome)
    requires Reachable(s) && s.pass.Active? && !s.cfg.pool && PastDeletion(s.pass.pc) && !StillNeeded(s.pass)
    requires (forall k | 0 <= k < |events| :: !events[k].Begin?) && Replay(s, events).Some?
    requires var t := Replay(s, events).value;
             t.pass.Active? && t.pass.pc.Close? && o.spec && Enabled(t, Patched(o)) && Apply(t, Patched(o)).store.Some?
    ensures Apply(Replay(s, events).value, Patched(o)).store.value.secretPrefix == "" <==> !NewlyRecorded(s)
  {
    NoPrefixPastDeletion(s);
    DroppedRun(s, events);
    StoreEffect(Replay(s, events).value, Patched(o));
  }
}
