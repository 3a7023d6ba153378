/**
 Attaching a control plane instance to the load balancers of the API server.

 controllers/awsmachine_controller.go: reconcileLBAttachment and the functions it calls;
 pkg/cloud/services/elb/loadbalancer.go: what "registered" means for target groups.
 */
module LoadBalancerAttachment {
  import opened Basics

  /** The type field: classic, the empty string, one of elb, alb and nlb, or anything else. */
  datatype Kind = Classic | Unset | V2 | Unknown

  datatype LoadBalancer = LoadBalancer(kind: Kind, name: string)

  datatype Error = CallFailed | NoTargetGroups | InstanceNotRunning | UnknownType

  datatype InstanceState = Pending | Running | Other

  datatype Machine = Machine(controlPlane: bool, deleted: bool, infraDeleted: bool, state: Option<InstanceState>) {
    /** Pending is one of the running states. */
    predicate InstanceIsRunning() {
      state == Some(Pending) || state == Some(Running)
    }

    predicate MustLeave() {
      infraDeleted || deleted || !InstanceIsRunning()
    }
  }

  /** How many target groups each load balancer has, and which calls fail during the pass. */
  datatype Env = Env(
    groups: map<string, nat>,
    describeFails: set<string>,
    registerFails: set<(string, nat)>,
    deregisterFails: set<(string, nat)>,
    classicDescribeFails: bool,
    classicRegisterFails: bool,
    classicDeregisterFails: bool
  )

  /** Where the instance is registered: with the classic load balancer, and with which target groups of the others. */
  datatype Cloud = Cloud(classic: bool, members: map<string, set<nat>>) {
    function At(name: string): set<nat> {
      if name in members then members[name] else {}
    }
  }

  datatype StepResult = StepResult(cloud: Cloud, error: Option<Error>)

  datatype Outcome = Outcome(cloud: Cloud, errs: seq<Error>)

  // ---------------------------------------------------------------------------------------------
  // What one entry does
  // ---------------------------------------------------------------------------------------------

  predicate Described(env: Env, name: string) {
    name in env.groups && name !in env.describeFails
  }

  /** The target groups of the load balancer that hold the instance. */
  function Listed(env: Env, c: Cloud, name: string): set<nat>
    requires name in env.groups
  {
    set n | n in c.At(name) && n < env.groups[name]
  }

  /** RegisterTargets for group n and the ones after it, up to the first failure. */
  function RegisterFrom(env: Env, name: string, have: set<nat>, n: nat): (set<nat>, bool)
    requires name in env.groups && n <= env.groups[name]
    decreases env.groups[name] - n
  {
    if n == env.groups[name] then (have, true)
    else if (name, n) in env.registerFails then (have, false)
    else RegisterFrom(env, name, have + {n}, n + 1)
  }

  /** DeregisterTargets for the groups of a list, up to the first failure. */
  function DeregisterFrom(env: Env, name: string, have: set<nat>, n: nat): (set<nat>, bool)
    requires name in env.groups && n <= env.groups[name]
    decreases env.groups[name] - n
  {
    if n == env.groups[name] then (have, true)
    else if n !in have then DeregisterFrom(env, name, have, n + 1)
    else if (name, n) in env.deregisterFails then (have, false)
    else DeregisterFrom(env, name, have - {n}, n + 1)
  }

  function RegisterV2(env: Env, m: Machine, c: Cloud, name: string): StepResult {
    if !Described(env, name) then StepResult(c, Some(CallFailed))
    else if Listed(env, c, name) != {} then StepResult(c, None)
    else if m.state != Some(Running) then StepResult(c, Some(InstanceNotRunning))
    else if env.groups[name] == 0 then StepResult(c, Some(NoTargetGroups))
    else
      var (have, ok) := RegisterFrom(env, name, c.At(name), 0);
      StepResult(c.(members := c.members[name := have]), if ok then None else Some(CallFailed))
  }

  function DeregisterV2(env: Env, c: Cloud, name: string): StepResult {
    if !Described(env, name) then StepResult(c, Some(CallFailed))
    else if Listed(env, c, name) == {} then StepResult(c, None)
    else
      var (have, ok) := DeregisterFrom(env, name, c.At(name), 0);
      StepResult(c.(members := c.members[name := have]), if ok then None else Some(CallFailed))
  }

  function RegisterClassic(env: Env, c: Cloud): StepResult {
    if env.classicDescribeFails then StepResult(c, Some(CallFailed))
    else if c.classic then StepResult(c, None)
    else if env.classicRegisterFails then StepResult(c, Some(CallFailed))
    else StepResult(c.(classic := true), None)
  }

  function DeregisterClassic(env: Env, c: Cloud): StepResult {
    if env.classicDescribeFails then StepResult(c, Some(CallFailed))
    else if !c.classic then StepResult(c, None)
    else if env.classicDeregisterFails then StepResult(c, Some(CallFailed))
    else StepResult(c.(classic := false), None)
  }

  function Register(env: Env, m: Machine, c: Cloud, lb: LoadBalancer): StepResult {
    match lb.kind
    case Classic => RegisterClassic(env, c)
    case Unset => RegisterClassic(env, c)
    case V2 => RegisterV2(env, m, c, lb.name)
    case Unknown => StepResult(c, Some(UnknownType))
  }

  /** An entry that does not end the loop. */
  function Step(env: Env, m: Machine, c: Cloud, lb: LoadBalancer): StepResult {
    if m.MustLeave() then DeregisterV2(env, c, lb.name) else Register(env, m, c, lb)
  }

  function AsList(e: Option<Error>): seq<Error> {
    if e.None? then [] else [e.value]
  }

  /** The loop from an entry on; a classic entry on the way out returns at once, with its own error alone. */
  function PassFrom(env: Env, m: Machine, lbs: seq<Option<LoadBalancer>>, c: Cloud, errs: seq<Error>): Outcome {
    if lbs == [] then Outcome(c, errs)
    else if lbs[0].None? then PassFrom(env, m, lbs[1..], c, errs)
    else if m.MustLeave() && lbs[0].value.kind.Classic? then
      var r := DeregisterClassic(env, c);
      Outcome(r.cloud, AsList(r.error))
    else
      var r := Step(env, m, c, lbs[0].value);
      PassFrom(env, m, lbs[1..], r.cloud, errs + AsList(r.error))
  }

  /** reconcileLBAttachment. */
  function Pass(env: Env, m: Machine, lbs: seq<Option<LoadBalancer>>, c: Cloud): Outcome {
    if !m.controlPlane then Outcome(c, []) else PassFrom(env, m, lbs, c, [])
  }

  // ---------------------------------------------------------------------------------------------
  // The same, in place
  // ---------------------------------------------------------------------------------------------

  class Service {
    const env: Env
    var cloud: Cloud

    constructor (env: Env, cloud: Cloud)
      ensures this.env == env && this.cloud == cloud
    {
      this.env, this.cloud := env, cloud;
    }

    method RegisterInstanceToV2LB(m: Machine, name: string) returns (error: Option<Error>)
      modifies this
      ensures StepResult(cloud, error) == RegisterV2(env, m, old(cloud), name)
    {
      if !Described(env, name) {
        return Some(CallFailed);
      }
      if Listed(env, cloud, name) != {} {
        return None;
      }
      if m.state != Some(Running) {
        return Some(InstanceNotRunning);
      }
      if env.groups[name] == 0 {
        return Some(NoTargetGroups);
      }
      ghost var all := RegisterFrom(env, name, cloud.At(name), 0);
      var have: set<nat> := cloud.At(name);
      for n := 0 to env.groups[name]
        invariant RegisterFrom(env, name, have, n) == all
        invariant cloud == old(cloud)
      {
        if (name, n) in env.registerFails {
          cloud := cloud.(members := cloud.members[name := have]);
          return Some(CallFailed);
        }
        have := have + {n};
      }
      cloud := cloud.(members := cloud.members[name := have]);
      return None;
    }

    method DeregisterInstanceFromV2LB(name: string) returns (error: Option<Error>)
      modifies this
      ensures StepResult(cloud, error) == DeregisterV2(env, old(cloud), name)
    {
      if !Described(env, name) {
        return Some(CallFailed);
      }
      if Listed(env, cloud, name) == {} {
        return None;
      }
      ghost var all := DeregisterFrom(env, name, cloud.At(name), 0);
      var have: set<nat> := cloud.At(name);
      for n := 0 to env.groups[name]
        invariant DeregisterFrom(env, name, have, n) == all
        invariant cloud == old(cloud)
      {
        if n in have {
          if (name, n) in env.deregisterFails {
            cloud := cloud.(members := cloud.members[name := have]);
            return Some(CallFailed);
          }
          have := have - {n};
        }
      }
      cloud := cloud.(members := cloud.members[name := have]);
      return None;
    }

    method RegisterInstanceToClassicLB() returns (error: Option<Error>)
      modifies this
      ensures error.None? ==> cloud == old(cloud).(classic := true)
      ensures error.Some? ==> cloud == old(cloud)
      ensures StepResult(cloud, error) == RegisterClassic(env, old(cloud))
    {
      if env.classicDescribeFails {
        return Some(CallFailed);
      }
      if cloud.classic {
        return None;
      }
      if env.classicRegisterFails {
        return Some(CallFailed);
      }
      cloud := cloud.(classic := true);
      return None;
    }

    method DeregisterInstanceFromClassicLB() returns (error: Option<Error>)
      modifies this
      ensures error.None? ==> cloud == old(cloud).(classic := false)
      ensures error.Some? ==> cloud == old(cloud)
      ensures StepResult(cloud, error) == DeregisterClassic(env, old(cloud))
    {
      if env.classicDescribeFails {
        return Some(CallFailed);
      }
      if !cloud.classic {
        return None;
      }
      if env.classicDeregisterFails {
        return Some(CallFailed);
      }
      cloud := cloud.(classic := false);
      return None;
    }

    method RegisterInstanceToLBs(m: Machine, lb: LoadBalancer) returns (error: Option<Error>)
      modifies this
      ensures StepResult(cloud, error) == Register(env, m, old(cloud), lb)
    {
      match lb.kind
      case Classic => error := RegisterInstanceToClassicLB();
      case Unset => error := RegisterInstanceToClassicLB();
      case V2 => error := RegisterInstanceToV2LB(m, lb.name);
      case Unknown => error := Some(UnknownType);
    }

    method ReconcileLBAttachment(m: Machine, lbs: seq<Option<LoadBalancer>>) returns (errs: seq<Error>)
      modifies this
      ensures Outcome(cloud, errs) == Pass(env, m, lbs, old(cloud))
    {
      errs := [];
      if !m.controlPlane {
        return;
      }
      for k := 0 to |lbs|
        invariant PassFrom(env, m, lbs[k..], cloud, errs) == PassFrom(env, m, lbs, old(cloud), [])
      {
        assert lbs[k..][0] == lbs[k] && lbs[k..][1..] == lbs[k + 1..];
        if lbs[k].None? {
          continue;
        }
        var error: Option<Error>;
        if m.MustLeave() {
          if lbs[k].value.kind.Classic? {
            error := DeregisterInstanceFromClassicLB();
            return AsList(error);
          }
          error := DeregisterInstanceFromV2LB(lbs[k].value.name);
          errs := errs + AsList(error);
          continue;
        }
        error := RegisterInstanceToLBs(m, lbs[k].value);
        errs := errs + AsList(error);
      }
    }
  }

  // ---------------------------------------------------------------------------------------------
  // Lists without classic load balancers
  // ---------------------------------------------------------------------------------------------

  predicate NoGroup(env: Env, c: Cloud, name: string) {
    name in env.groups && Listed(env, c, name) == {}
  }

  predicate EveryGroup(env: Env, c: Cloud, name: string) {
    name in env.groups && forall n | 0 <= n < env.groups[name] :: n in c.At(name)
  }

  predicate SomeGroup(env: Env, c: Cloud, name: string) {
    name in env.groups && Listed(env, c, name) != {}
  }

  predicate HasKind(lbs: seq<Option<LoadBalancer>>, kind: Kind) {
    exists k | 0 <= k < |lbs| :: lbs[k].Some? && lbs[k].value.kind == kind
  }

  predicate OnlyV2(lbs: seq<Option<LoadBalancer>>) {
    forall k | 0 <= k < |lbs| :: lbs[k].Some? ==> lbs[k].value.kind.V2?
  }

  /** A successful registration covers every group; a partial one what came before the failure. */
  lemma {:induction false} RegisterFromAll(env: Env, name: string, have: set<nat>, n: nat)
    requires name in env.groups && n <= env.groups[name]
    requires forall i | 0 <= i < n :: i in have
    ensures var (r, ok) := RegisterFrom(env, name, have, n);
            && have <= r
            && (ok ==> forall i | 0 <= i < env.groups[name] :: i in r)
            && (!ok ==> exists i | 0 <= i < env.groups[name] :: (name, i) in env.registerFails)
    decreases env.groups[name] - n
  {
    if n != env.groups[name] && (name, n) !in env.registerFails {
      RegisterFromAll(env, name, have + {n}, n + 1);
    }
  }

  lemma {:induction false} DeregisterFromAll(env: Env, name: string, have: set<nat>, n: nat)
    requires name in env.groups && n <= env.groups[name]
    requires forall i | 0 <= i < n :: i !in have
    ensures var (r, ok) := DeregisterFrom(env, name, have, n);
            && r <= have
            && (ok ==> forall i | 0 <= i < env.groups[name] :: i !in r)
            && (!ok ==> exists i | i in have && i < env.groups[name] :: (name, i) in env.deregisterFails && i in r)
    decreases env.groups[name] - n
  {
    if n != env.groups[name] {
      if n !in have {
        DeregisterFromAll(env, name, have, n + 1);
      } else if (name, n) !in env.deregisterFails {
        DeregisterFromAll(env, name, have - {n}, n + 1);
      }
    }
  }

  /** One entry: what no error means, and that no other load balancer is touched. */
  lemma StepMeans(env: Env, m: Machine, c: Cloud, lb: LoadBalancer)
    requires m.MustLeave() || lb.kind.V2?
    ensures var r := Step(env, m, c, lb);
            && r.cloud.classic == c.classic
            && (forall other | other != lb.name :: r.cloud.At(other) == c.At(other))
            && (r.error.None? && m.MustLeave() ==> NoGroup(env, r.cloud, lb.name))
            && (r.error.None? && !m.MustLeave() ==> SomeGroup(env, r.cloud, lb.name))
            && (r.error.None? && !m.MustLeave() ==>
                  (EveryGroup(env, r.cloud, lb.name) <==> EveryGroup(env, c, lb.name) || NoGroup(env, c, lb.name)))
  {
    if Described(env, lb.name) && m.MustLeave() && Listed(env, c, lb.name) != {} {
      DeregisterFromAll(env, lb.name, c.At(lb.name), 0);
    }
    if Described(env, lb.name) && !m.MustLeave() && NoGroup(env, c, lb.name) && env.groups[lb.name] != 0 {
      RegisterFromAll(env, lb.name, c.At(lb.name), 0);
      var r := Step(env, m, c, lb);
      assert r.error.None? ==> 0 in Listed(env, r.cloud, lb.name);
    }
  }

  /** The instance is a member, in the sense of the entry's type. */
  predicate Member(env: Env, c: Cloud, lb: LoadBalancer) {
    match lb.kind
    case Classic => c.classic
    case Unset => c.classic
    case V2 => SomeGroup(env, c, lb.name)
    case Unknown => false
  }

  /**
   What registration gives a caller, for every type: without error the instance is a member; it leaves no load balancer
   it was in; an error at a classic load balancer, or of an unknown type, changes nothing; and whatever happens, no other
   load balancer is touched.
   */
  lemma RegisterMeans(env: Env, m: Machine, c: Cloud, lb: LoadBalancer)
    ensures var r := Register(env, m, c, lb);
            && (r.error.None? ==> Member(env, r.cloud, lb))
            && (Member(env, c, lb) ==> Member(env, r.cloud, lb))
            && (r.error.Some? && !lb.kind.V2? ==> r.cloud == c)
            && (lb.kind.Unknown? ==> r.error.Some?)
            && (if lb.kind.V2? then r.cloud.classic == c.classic else r.cloud.members == c.members)
            && (forall other | other != lb.name :: r.cloud.At(other) == c.At(other))
  {
    if lb.kind.V2? && Described(env, lb.name) && NoGroup(env, c, lb.name) && env.groups[lb.name] != 0 {
      RegisterFromAll(env, lb.name, c.At(lb.name), 0);
      var r := Register(env, m, c, lb);
      assert r.error.None? ==> 0 in Listed(env, r.cloud, lb.name);
    }
  }

  /** Registering with the classic load balancer and leaving it again, both without error, undo each other. */
  lemma ClassicUndone(env: Env, c: Cloud)
    requires RegisterClassic(env, c).error.None?
    ensures var back := DeregisterClassic(env, RegisterClassic(env, c).cloud);
            && (back.error.None? ==> back.cloud == c.(classic := false))
            && (back.error.Some? ==> back.cloud == c.(classic := true))
            && (back.error.Some? <==> env.classicDeregisterFails)
  {}

  /** A step looks at its own load balancer only. */
  lemma StepLocal(env: Env, m: Machine, c1: Cloud, c2: Cloud, lb: LoadBalancer)
    requires lb.kind.V2? && c1.At(lb.name) == c2.At(lb.name)
    ensures Step(env, m, c1, lb).error == Step(env, m, c2, lb).error
    ensures Step(env, m, c1, lb).cloud.At(lb.name) == Step(env, m, c2, lb).cloud.At(lb.name)
  {
    if lb.name in env.groups {
      assert Listed(env, c1, lb.name) == Listed(env, c2, lb.name);
    }
  }

  predicate DistinctNames(lbs: seq<Option<LoadBalancer>>) {
    forall i, j | 0 <= i < j < |lbs| && lbs[i].Some? && lbs[j].Some? :: lbs[i].value.name != lbs[j].value.name
  }

  /** The errors of the entries, each tried alone. */
  function ErrorsAlone(env: Env, m: Machine, lbs: seq<Option<LoadBalancer>>, c: Cloud): seq<Error> {
    if lbs == [] then []
    else if lbs[0].None? then ErrorsAlone(env, m, lbs[1..], c)
    else AsList(Step(env, m, c, lbs[0].value).error) + ErrorsAlone(env, m, lbs[1..], c)
  }

  lemma {:induction false} ErrorsAloneLocal(env: Env, m: Machine, lbs: seq<Option<LoadBalancer>>, c1: Cloud, c2: Cloud)
    requires OnlyV2(lbs)
    requires forall k | 0 <= k < |lbs| :: lbs[k].Some? ==> c1.At(lbs[k].value.name) == c2.At(lbs[k].value.name)
    ensures ErrorsAlone(env, m, lbs, c1) == ErrorsAlone(env, m, lbs, c2)
  {
    if lbs != [] {
      if lbs[0].Some? {
        StepLocal(env, m, c1, c2, lbs[0].value);
      }
      ErrorsAloneLocal(env, m, lbs[1..], c1, c2);
    }
  }

  predicate Named(lbs: seq<Option<LoadBalancer>>, name: string) {
    exists k | 0 <= k < |lbs| :: lbs[k].Some? && lbs[k].value.name == name
  }

  lemma {:induction false} DeregisterAgain(env: Env, name: string, have: set<nat>, n: nat)
    requires name in env.groups && n <= env.groups[name]
    ensures var (r, ok) := DeregisterFrom(env, name, have, n);
            r <= have && DeregisterFrom(env, name, r, n) == (r, ok)
    decreases env.groups[name] - n
  {
    if n != env.groups[name] {
      if n !in have {
        DeregisterAgain(env, name, have, n + 1);
      } else if (name, n) !in env.deregisterFails {
        DeregisterAgain(env, name, have - {n}, n + 1);
      }
    }
  }

  /** A second entry for the same load balancer changes nothing more. */
  lemma StepTwice(env: Env, m: Machine, c: Cloud, lb: LoadBalancer)
    requires lb.kind.V2?
    ensures var once := Step(env, m, c, lb).cloud;
            Step(env, m, once, lb).cloud.At(lb.name) == once.At(lb.name)
  {
    if Described(env, lb.name) {
      if m.MustLeave() {
        DeregisterAgain(env, lb.name, c.At(lb.name), 0);
      } else if env.groups[lb.name] > 0 {
        RegisterFirst(env, lb.name, c.At(lb.name));
        var once := Step(env, m, c, lb).cloud;
        assert 0 in once.At(lb.name) ==> 0 in Listed(env, once, lb.name);
      }
    }
  }

  /** Registration gets past the first group, or changes nothing. */
  lemma RegisterFirst(env: Env, name: string, have: set<nat>)
    requires name in env.groups && env.groups[name] > 0
    ensures var (r, ok) := RegisterFrom(env, name, have, 0);
            if (name, 0) in env.registerFails then r == have && !ok else 0 in r
  {
    if (name, 0) !in env.registerFails {
      RegisterGrows(env, name, have + {0}, 1);
    }
  }

  lemma {:induction false} RegisterGrows(env: Env, name: string, have: set<nat>, n: nat)
    requires name in env.groups && n <= env.groups[name]
    ensures have <= RegisterFrom(env, name, have, n).0
    decreases env.groups[name] - n
  {
    if n != env.groups[name] && (name, n) !in env.registerFails {
      RegisterGrows(env, name, have + {n}, n + 1);
    }
  }

  /** What an entry for the load balancer would leave there if it were alone. */
  function Alone(env: Env, m: Machine, c: Cloud, name: string): set<nat> {
    Step(env, m, c, LoadBalancer(V2, name)).cloud.At(name)
  }

  /** Some entry deals with the target groups of this load balancer: on the way out any entry does. */
  predicate Concerned(m: Machine, lbs: seq<Option<LoadBalancer>>, name: string) {
    exists k | 0 <= k < |lbs| :: lbs[k].Some? && lbs[k].value.name == name && (m.MustLeave() || lbs[k].value.kind.V2?)
  }

  /** An entry that does not deal with the load balancer leaves it alone. */
  lemma StepElsewhere(env: Env, m: Machine, c: Cloud, lb: LoadBalancer, name: string)
    requires lb.name != name || !(m.MustLeave() || lb.kind.V2?)
    ensures Step(env, m, c, lb).cloud.At(name) == c.At(name)
  {
    if m.MustLeave() || lb.kind.V2? {
      StepMeans(env, m, c, lb);
    }
  }

  /**
   Every entry is tried, whatever happens to the others and however often a load balancer is listed: each one an entry
   deals with ends as if that entry were alone, and no other is touched.
   */
  lemma {:induction false} EveryEntryTried(env: Env, m: Machine, lbs: seq<Option<LoadBalancer>>, c: Cloud, errs: seq<Error>, name: string)
    requires m.MustLeave() ==> !HasKind(lbs, Classic)
    ensures PassFrom(env, m, lbs, c, errs).cloud.At(name) == if Concerned(m, lbs, name) then Alone(env, m, c, name) else c.At(name)
  {
    if lbs != [] {
      var rest := lbs[1..];
      assert forall k | 1 <= k < |lbs| :: lbs[k] == rest[k - 1];
      if lbs[0].None? {
        EveryEntryTried(env, m, rest, c, errs, name);
      } else {
        var lb, target := lbs[0].value, LoadBalancer(V2, name);
        var r := Step(env, m, c, lb);
        EveryEntryTried(env, m, rest, r.cloud, errs + AsList(r.error), name);
        if lb.name == name && (m.MustLeave() || lb.kind.V2?) {
          assert r == Step(env, m, c, target);
          StepTwice(env, m, c, target);
        } else {
          StepElsewhere(env, m, c, lb, name);
          StepLocal(env, m, r.cloud, c, target);
        }
      }
    }
  }

  /** With every load balancer listed once, the errors are those of the entries, each tried alone. */
  lemma {:induction false} EveryErrorReported(env: Env, m: Machine, lbs: seq<Option<LoadBalancer>>, c: Cloud, errs: seq<Error>)
    requires OnlyV2(lbs) && DistinctNames(lbs)
    ensures PassFrom(env, m, lbs, c, errs).errs == errs + ErrorsAlone(env, m, lbs, c)
  {
    if lbs != [] {
      var rest := lbs[1..];
      assert forall k | 1 <= k < |lbs| :: lbs[k] == rest[k - 1];
      if lbs[0].None? {
        EveryErrorReported(env, m, rest, c, errs);
      } else {
        var r := Step(env, m, c, lbs[0].value);
        StepMeans(env, m, c, lbs[0].value);
        EveryErrorReported(env, m, rest, r.cloud, errs + AsList(r.error));
        ErrorsAloneLocal(env, m, rest, r.cloud, c);
      }
    }
  }

  // ---------------------------------------------------------------------------------------------
  // What a nil result means
  // ---------------------------------------------------------------------------------------------

  /**
   A pass over target-group load balancers that returns nil leaves the instance in none of their groups if it must
   leave.  Otherwise it is in some group of each of them, and in every group exactly of those that had it in none or
   in all before: a registration that failed half way is never completed.
   */
  lemma {:induction false} NilMeans(env: Env, m: Machine, lbs: seq<Option<LoadBalancer>>, c: Cloud, errs: seq<Error>, name: string)
    requires OnlyV2(lbs) || (m.MustLeave() && !HasKind(lbs, Classic))
    requires PassFrom(env, m, lbs, c, errs).errs == []
    ensures errs == []
    ensures var after := PassFrom(env, m, lbs, c, errs).cloud;
            if !Named(lbs, name) then after.At(name) == c.At(name)
            else if m.MustLeave() then NoGroup(env, after, name)
            else
              && SomeGroup(env, after, name)
              && (EveryGroup(env, after, name) <==> EveryGroup(env, c, name) || NoGroup(env, c, name))
  {
    if lbs != [] {
      var rest := lbs[1..];
      assert forall k | 1 <= k < |lbs| :: lbs[k] == rest[k - 1];
      if lbs[0].None? {
        NilMeans(env, m, rest, c, errs, name);
      } else {
        var r := Step(env, m, c, lbs[0].value);
        StepMeans(env, m, c, lbs[0].value);
        NilMeans(env, m, rest, r.cloud, errs + AsList(r.error), name);
      }
    }
  }

  function Quiet(groups: map<string, nat>): Env {
    Env(groups, {}, {}, {}, false, false, false)
  }

  /** The loop over a single load balancer and a gap. */
  lemma OneEntry(env: Env, m: Machine, lb: LoadBalancer, c: Cloud)
    requires m.controlPlane && lb.kind.V2?
    ensures var r := Step(env, m, c, lb);
            Pass(env, m, [Some(lb), None], c) == Outcome(r.cloud, AsList(r.error))
  {
    var lbs := [Some(lb), None];
    assert lbs[1..] == [None] && lbs[1..][1..] == [];
    var r := Step(env, m, c, lb);
    assert PassFrom(env, m, [None], r.cloud, [] + AsList(r.error)) == Outcome(r.cloud, AsList(r.error));
  }

  /** A failure at the second target group: the next pass, without failures, reports success and leaves it out. */
  lemma HalfRegistrationSticks()
    ensures var m := Machine(true, false, false, Some(Running));
            var lbs := [Some(LoadBalancer(V2, "api")), None];
            var env := Quiet(map["api" := 2]);
            var first := Pass(env.(registerFails := {("api", 1)}), m, lbs, Cloud(false, map[]));
            var second := Pass(env, m, lbs, first.cloud);
            first.errs != [] && second.errs == [] && second.cloud.At("api") == {0}
  {
    var m := Machine(true, false, false, Some(Running));
    var lb := LoadBalancer(V2, "api");
    var quiet := Quiet(map["api" := 2]);
    var env := quiet.(registerFails := {("api", 1)});
    var c := Cloud(false, map[]);
    assert {} + {0} == {0};
    assert RegisterFrom(env, "api", {0}, 1) == ({0}, false);
    assert RegisterFrom(env, "api", c.At("api"), 0) == ({0}, false);
    var half := Cloud(false, map["api" := {0}]);
    assert Step(env, m, c, lb) == StepResult(half, Some(CallFailed));
    OneEntry(env, m, lb, c);
    assert 0 in Listed(quiet, half, "api");
    OneEntry(quiet, m, lb, half);
  }

  // ---------------------------------------------------------------------------------------------
  // Classic load balancers on the way out
  // ---------------------------------------------------------------------------------------------

  /**
   The entries before the first classic one are processed and their errors forgotten, the classic one decides the
   result, and what comes after it plays no part.
   */
  lemma {:induction false} UpToFirstClassic(env: Env, m: Machine, before: seq<Option<LoadBalancer>>, classic: LoadBalancer,
                                            after: seq<Option<LoadBalancer>>, c: Cloud, errs: seq<Error>)
    requires m.MustLeave() && !HasKind(before, Classic) && classic.kind.Classic?
    ensures var r := DeregisterClassic(env, PassFrom(env, m, before, c, errs).cloud);
            PassFrom(env, m, before + [Some(classic)] + after, c, errs) == Outcome(r.cloud, AsList(r.error))
  {
    var lbs := before + [Some(classic)] + after;
    if before != [] {
      var rest := before[1..];
      assert lbs[1..] == rest + [Some(classic)] + after;
      assert forall k | 0 <= k < |rest| :: rest[k] == before[k + 1];
      if before[0].None? {
        UpToFirstClassic(env, m, rest, classic, after, c, errs);
      } else {
        var r := Step(env, m, c, before[0].value);
        UpToFirstClassic(env, m, rest, classic, after, r.cloud, errs + AsList(r.error));
      }
    }
  }

  /** The instance is no longer where the list's entries would have registered it. */
  predicate Gone(env: Env, lbs: seq<Option<LoadBalancer>>, c: Cloud) {
    && (HasKind(lbs, Classic) || HasKind(lbs, Unset) ==> !c.classic)
    && (forall k | 0 <= k < |lbs| && lbs[k].Some? && lbs[k].value.kind.V2? :: NoGroup(env, c, lbs[k].value.name))
  }

  /** Classic load balancers alone, or none and no empty type. */
  predicate LeavesCleanly(lbs: seq<Option<LoadBalancer>>) {
    if HasKind(lbs, Classic) then !HasKind(lbs, V2) else !HasKind(lbs, Unset)
  }

  lemma FirstClassic(lbs: seq<Option<LoadBalancer>>) returns (k: nat)
    requires HasKind(lbs, Classic)
    ensures k < |lbs| && lbs[k].Some? && lbs[k].value.kind.Classic? && !HasKind(lbs[..k], Classic)
    ensures lbs == lbs[..k] + [lbs[k]] + lbs[k + 1..]
  {
    var some :| 0 <= some < |lbs| && lbs[some].Some? && lbs[some].value.kind == Classic;
    k := 0;
    while !(lbs[k].Some? && lbs[k].value.kind.Classic?)
      invariant k <= some && !HasKind(lbs[..k], Classic)
      decreases some - k
    {
      k := k + 1;
    }
  }

  /** Where every step leaves the cloud as it is, so does the loop. */
  lemma {:induction false} LoopIdle(env: Env, m: Machine, lbs: seq<Option<LoadBalancer>>, c: Cloud, errs: seq<Error>)
    requires m.MustLeave() && !HasKind(lbs, Classic)
    requires forall k | 0 <= k < |lbs| && lbs[k].Some? :: DeregisterV2(env, c, lbs[k].value.name).cloud == c
    ensures PassFrom(env, m, lbs, c, errs).cloud == c
    ensures (forall k | 0 <= k < |lbs| && lbs[k].Some? :: DeregisterV2(env, c, lbs[k].value.name).error.None?)
            ==> PassFrom(env, m, lbs, c, errs).errs == errs
  {
    if lbs != [] {
      var rest := lbs[1..];
      assert forall k | 0 <= k < |rest| :: rest[k] == lbs[k + 1];
      if lbs[0].None? {
        LoopIdle(env, m, rest, c, errs);
      } else {
        LoopIdle(env, m, rest, c, errs + AsList(Step(env, m, c, lbs[0].value).error));
      }
    }
  }

  lemma LeavesWhenClean(env: Env, m: Machine, lbs: seq<Option<LoadBalancer>>, c: Cloud)
    requires m.controlPlane && m.MustLeave() && LeavesCleanly(lbs) && Pass(env, m, lbs, c).errs == []
    ensures Gone(env, lbs, Pass(env, m, lbs, c).cloud)
  {
    if HasKind(lbs, Classic) {
      var k := FirstClassic(lbs);
      UpToFirstClassic(env, m, lbs[..k], lbs[k].value, lbs[k + 1..], c, []);
    } else {
      forall k | 0 <= k < |lbs| && lbs[k].Some?
        ensures NoGroup(env, Pass(env, m, lbs, c).cloud, lbs[k].value.name)
      {
        NilMeans(env, m, lbs, c, [], lbs[k].value.name);
      }
    }
  }

  /** A classic entry beside a target-group one: a failing describe call at the latter goes unreported. */
  lemma ClassicHidesOthers(m: Machine, lbs: seq<Option<LoadBalancer>>) returns (env: Env, c: Cloud)
    requires m.controlPlane && m.MustLeave() && HasKind(lbs, Classic) && HasKind(lbs, V2)
    ensures Pass(env, m, lbs, c).errs == [] && !Gone(env, lbs, Pass(env, m, lbs, c).cloud)
  {
    var v :| 0 <= v < |lbs| && lbs[v].Some? && lbs[v].value.kind == V2;
    var name := lbs[v].value.name;
    env := Quiet(map[name := 1]).(describeFails := {name});
    c := Cloud(false, map[name := {0}]);
    var k := FirstClassic(lbs);
    UpToFirstClassic(env, m, lbs[..k], lbs[k].value, lbs[k + 1..], c, []);
    LoopIdle(env, m, lbs[..k], c, []);
    assert 0 in Listed(env, c, name);
  }

  /** An entry with the empty type is registered as classic and deregistered as if it were not. */
  lemma UnsetStays(m: Machine, lbs: seq<Option<LoadBalancer>>) returns (env: Env, c: Cloud)
    requires m.controlPlane && m.MustLeave() && !HasKind(lbs, Classic) && HasKind(lbs, Unset)
    ensures Pass(env, m, lbs, c).errs == [] && !Gone(env, lbs, Pass(env, m, lbs, c).cloud)
  {
    var names := set j | 0 <= j < |lbs| && lbs[j].Some? :: lbs[j].value.name;
    env := Quiet(map name | name in names :: 1);
    c := Cloud(true, map[]);
    LoopIdle(env, m, lbs, c, []);
  }

  /** A nil result means the instance has left, for every cloud and every failure, exactly for clean lists. */
  lemma LeavesIff(m: Machine, lbs: seq<Option<LoadBalancer>>)
    requires m.controlPlane && m.MustLeave()
    ensures (forall env, c :: Pass(env, m, lbs, c).errs == [] ==> Gone(env, lbs, Pass(env, m, lbs, c).cloud))
            <==> LeavesCleanly(lbs)
  {
    if LeavesCleanly(lbs) {
      forall env, c | Pass(env, m, lbs, c).errs == []
        ensures Gone(env, lbs, Pass(env, m, lbs, c).cloud)
      {
        LeavesWhenClean(env, m, lbs, c);
      }
    } else if HasKind(lbs, Classic) {
      var env, c := ClassicHidesOthers(m, lbs);
    } else {
      var env, c := UnsetStays(m, lbs);
    }
  }
}
