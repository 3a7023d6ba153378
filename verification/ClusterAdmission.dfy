/**
 Admission of AWSCluster updates as a transition relation.

 webhooks/awscluster_webhook.go: ValidateUpdate, validateControlPlaneLoadBalancerUpdate;
 api/v1beta2/defaults.go: SetDefaults_AWSClusterSpec.
 */
module ClusterAdmission {
  import opened Basics

  datatype Listener = Listener(port: int, protocol: string, targetGroupIPType: Option<string>)

  /** The sources of a rule; a list that is not given is nil. */
  datatype IngressRule = IngressRule(
    natGatewaysIPsSource: bool,
    cidrBlocks: Option<seq<string>>,
    ipv6CidrBlocks: Option<seq<string>>,
    sourceSecurityGroupIDs: Option<seq<string>>,
    sourceSecurityGroupRoles: Option<seq<string>>
  )

  datatype LoadBalancer = LoadBalancer(
    kind: string,
    scheme: Option<string>,
    name: Option<string>,
    healthCheckProtocol: Option<string>,
    targetGroupIPType: Option<string>,
    crossZoneLoadBalancing: bool,
    subnets: seq<string>,
    additionalSecurityGroups: seq<string>,
    additionalListeners: seq<Listener>,
    ingressRules: seq<IngressRule>,
    preserveClientIP: bool,
    disableHostsRewrite: bool
  )

  const Classic := "classic"
  const NLB := "nlb"
  const Disabled := "disabled"
  const InternetFacing := "internet-facing"
  const Internal := "internal"

  datatype Endpoint = Endpoint(host: string, port: int)

  /** rest stands for the fields of the VPC, and of the network, that admission of updates compares only with zero. */
  datatype VPC = VPC(id: string, ipv6: bool, rest: string)
  datatype Network = Network(vpc: VPC, rest: string)

  datatype Identity = Identity(kind: string, name: string)

  /** fieldsValid is the verdict of the checks that look at one field of the new object alone. */
  datatype Cluster = Cluster(
    region: string,
    primary: Option<LoadBalancer>,
    secondary: Option<LoadBalancer>,
    endpoint: Endpoint,
    network: Network,
    identityRef: Option<Identity>,
    externallyManaged: bool,
    fieldsValid: bool
  )

  const ZeroEndpoint := Endpoint("", 0)
  const ZeroVPC := VPC("", false, "")
  const ZeroNetwork := Network(ZeroVPC, "")

  function EmptyLoadBalancer(): LoadBalancer {
    LoadBalancer("", None, None, None, None, false, [], [], [], [], false, false)
  }

  // ---------------------------------------------------------------------------------------------
  // Defaulting
  // ---------------------------------------------------------------------------------------------

  predicate IsDefaulted(c: Cluster) {
    && c.identityRef.Some?
    && c.primary.Some? && c.primary.value.kind != ""
    && (c.secondary.Some? ==> c.secondary.value.kind != "" && c.secondary.value.scheme.Some?)
  }

  /** SetDefaults_AWSClusterSpec: the result is defaulted, and defaulting an object that is changes nothing. */
  function Defaulted(c: Cluster): (r: Cluster)
    ensures IsDefaulted(r)
    ensures IsDefaulted(c) ==> r == c
  {
    var identity := if c.identityRef.None? then Identity("AWSClusterControllerIdentity", "default") else c.identityRef.value;
    var lb := if c.primary.None? then EmptyLoadBalancer().(scheme := Some(InternetFacing)) else c.primary.value;
    var primary := if lb.kind == "" then lb.(kind := Classic) else lb;
    var secondary := if c.secondary.None? then None else
                     var s := c.secondary.value;
                     Some(s.(kind := if s.kind == "" then NLB else s.kind,
                             scheme := if s.scheme.None? then Some(Internal) else s.scheme));
    c.(identityRef := Some(identity), primary := Some(primary), secondary := secondary)
  }

  // ---------------------------------------------------------------------------------------------
  // ValidateUpdate
  // ---------------------------------------------------------------------------------------------

  datatype Error = RegionChanged | SchemeNotDefault | TypeChanged | SchemeChanged | NameChanged | ProtocolChanged
                 | IPTypeChanged | EndpointChanged | VPCChanged | IdentityRemoved | ManagementTaken | FieldInvalid

  datatype Verdict = Panics | Judged(errs: seq<Error>) {
    predicate Accepted() {
      Judged? && errs == []
    }
  }

  /** The two load balancers may follow each other. */
  predicate MayFollow(oldLB: LoadBalancer, newLB: LoadBalancer) {
    && (oldLB.kind == Disabled <==> newLB.kind == Disabled)
    && oldLB.scheme == newLB.scheme
    && oldLB.name == newLB.name
    && (oldLB.kind != Classic ==> oldLB.healthCheckProtocol == newLB.healthCheckProtocol)
    && oldLB.targetGroupIPType == newLB.targetGroupIPType
  }

  /** A load balancer may appear where there was none. */
  predicate MayAppear(newLB: LoadBalancer) {
    newLB.scheme.None? || newLB.scheme.value == InternetFacing
  }

  predicate PairAccepted(oldLB: Option<LoadBalancer>, newLB: Option<LoadBalancer>) {
    if newLB.None? then oldLB.None? else
    if oldLB.None? then MayAppear(newLB.value) else MayFollow(oldLB.value, newLB.value)
  }

  method ValidateControlPlaneLoadBalancerUpdate(oldLB: Option<LoadBalancer>, newLB: Option<LoadBalancer>) returns (r: Verdict)
    requires oldLB.Some? || newLB.Some?
    ensures r.Panics? <==> newLB.None?
    ensures r.Accepted() <==> PairAccepted(oldLB, newLB)
  {
    if newLB.None? {
      return Panics;
    }
    var now := newLB.value;
    var errs: seq<Error> := [];
    if oldLB.None? {
      if now.scheme.Some? && now.scheme.value != InternetFacing {
        errs := errs + [SchemeNotDefault];
      }
    } else {
      var was := oldLB.value;
      if (was.kind == Disabled && now.kind != Disabled) || (now.kind == Disabled && was.kind != Disabled) {
        errs := errs + [TypeChanged];
      }
      if was.scheme != now.scheme {
        errs := errs + [SchemeChanged];
      }
      if was.name != now.name {
        errs := errs + [NameChanged];
      }
      if was.kind != Classic && now.healthCheckProtocol != was.healthCheckProtocol {
        errs := errs + [ProtocolChanged];
      }
      if was.targetGroupIPType != now.targetGroupIPType {
        errs := errs + [IPTypeChanged];
      }
    }
    return Judged(errs);
  }

  /** The key of the pair map: a pointer to an old load balancer. */
  datatype Pointer = Nil | ToPrimary | ToSecondary

  /** With both old load balancers nil, the map has one entry, for the secondary. */
  predicate PairsAccepted(before: Cluster, after: Cluster) {
    && (before.primary.Some? || before.secondary.Some? ==> PairAccepted(before.primary, after.primary))
    && PairAccepted(before.secondary, after.secondary)
  }

  predicate PairsPanic(before: Cluster, after: Cluster) {
    (before.primary.Some? && after.primary.None?) || (before.secondary.Some? && after.secondary.None?)
  }

  /** The loop over the pairs of load balancers, in whatever order the map is ranged over. */
  method ValidatePairs(before: Cluster, after: Cluster) returns (r: Verdict)
    ensures r.Panics? <==> PairsPanic(before, after)
    ensures r.Accepted() <==> PairsAccepted(before, after)
  {
    var primary := if before.primary.None? then Nil else ToPrimary;
    var secondary := if before.secondary.None? then Nil else ToSecondary;
    var lbs := map[primary := after.primary][secondary := after.secondary];
    var errs: seq<Error> := [];
    var pending := lbs.Keys;
    while pending != {}
      invariant pending <= lbs.Keys
      invariant forall p | p in lbs.Keys - pending :: lbs[p].None? ==> p == Nil
      invariant errs == [] <==> forall p | p in lbs.Keys - pending :: PairAccepted(OldOf(before, p), lbs[p])
    {
      var p :| p in pending;
      var oldLB, newLB := OldOf(before, p), lbs[p];
      if oldLB.Some? || newLB.Some? {
        var v := ValidateControlPlaneLoadBalancerUpdate(oldLB, newLB);
        if v.Panics? {
          return Panics;
        }
        errs := errs + v.errs;
      }
      pending := pending - {p};
    }
    assert primary in lbs.Keys - pending && secondary in lbs.Keys - pending;
    return Judged(errs);
  }

  function OldOf(c: Cluster, p: Pointer): Option<LoadBalancer> {
    match p
    case Nil => None
    case ToPrimary => c.primary
    case ToSecondary => c.secondary
  }

  /** What must not change at all, and what must not change once it is set. */
  predicate FieldsMayFollow(before: Cluster, after: Cluster) {
    && after.region == before.region
    && (before.endpoint != ZeroEndpoint ==> after.endpoint == before.endpoint)
    && (before.network.vpc.id != "" ==> after.network.vpc.id == before.network.vpc.id)
    && (before.identityRef.Some? ==> after.identityRef.Some?)
    && (before.externallyManaged ==> after.externallyManaged)
  }

  predicate Accepts(before: Cluster, after: Cluster) {
    FieldsMayFollow(before, after) && PairsAccepted(before, after) && after.fieldsValid
  }

  /** ValidateUpdate. */
  method ValidateUpdate(after: Cluster, before: Cluster) returns (r: Verdict)
    ensures r.Panics? <==> PairsPanic(before, after)
    ensures r.Accepted() <==> Accepts(before, after)
  {
    var errs: seq<Error> := [];
    if after.region != before.region {
      errs := errs + [RegionChanged];
    }
    var pairs := ValidatePairs(before, after);
    if pairs.Panics? {
      return Panics;
    }
    errs := errs + pairs.errs;
    if before.endpoint != ZeroEndpoint && after.endpoint != before.endpoint {
      errs := errs + [EndpointChanged];
    }
    if before.network != ZeroNetwork && before.network.vpc != ZeroVPC && before.network.vpc.id != "" {
      if after.network == ZeroNetwork || after.network.vpc == ZeroVPC || before.network.vpc.id != after.network.vpc.id {
        errs := errs + [VPCChanged];
      }
    }
    if before.identityRef.Some? && after.identityRef.None? {
      errs := errs + [IdentityRemoved];
    }
    if before.externallyManaged && !after.externallyManaged {
      errs := errs + [ManagementTaken];
    }
    if !after.fieldsValid {
      errs := errs + [FieldInvalid];
    }
    return Judged(errs);
  }

  // ---------------------------------------------------------------------------------------------
  // Histories
  // ---------------------------------------------------------------------------------------------

  /** A stored object, and then what each accepted request was defaulted to. */
  predicate History(h: seq<Cluster>) {
    && (forall n | 0 <= n < |h| :: IsDefaulted(h[n]))
    && (forall n | 0 < n < |h| :: Accepts(h[n - 1], h[n]))
  }

  /** What stays between any two objects of a history. */
  predicate Frozen(a: Cluster, b: Cluster)
    requires a.primary.Some? && b.primary.Some?
  {
    && FieldsMayFollow(a, b)
    && a.primary.value.scheme == b.primary.value.scheme
    && a.primary.value.name == b.primary.value.name
    && a.primary.value.targetGroupIPType == b.primary.value.targetGroupIPType
    && (a.primary.value.kind == Disabled <==> b.primary.value.kind == Disabled)
    && (a.secondary.Some? ==>
          && b.secondary.Some?
          && a.secondary.value.scheme == b.secondary.value.scheme
          && a.secondary.value.name == b.secondary.value.name
          && a.secondary.value.targetGroupIPType == b.secondary.value.targetGroupIPType
          && (a.secondary.value.kind == Disabled <==> b.secondary.value.kind == Disabled))
    && (a.secondary.None? && b.secondary.Some? ==> b.secondary.value.scheme == Some(InternetFacing))
  }

  /** Along every history the frozen fields stay, from any object to any later one. */
  lemma {:induction false} HistoryFrozen(h: seq<Cluster>, i: nat, j: nat)
    requires History(h) && i <= j < |h|
    ensures h[i].primary.Some? && h[j].primary.Some? && Frozen(h[i], h[j])
    decreases j
  {
    assert IsDefaulted(h[i]) && IsDefaulted(h[j]);
    if i < j {
      HistoryFrozen(h, i, j - 1);
      assert Accepts(h[j - 1], h[j]);
      assert IsDefaulted(h[j - 1]);
    }
  }

  /** As long as the primary is never classic, its health check protocol is frozen too. */
  lemma {:induction false} ProtocolFrozen(h: seq<Cluster>, i: nat, j: nat)
    requires History(h) && i <= j < |h|
    requires forall n | i <= n < j :: h[n].primary.Some? && h[n].primary.value.kind != Classic
    ensures h[i].primary.Some? && h[j].primary.Some?
            && h[i].primary.value.healthCheckProtocol == h[j].primary.value.healthCheckProtocol
    decreases j
  {
    assert IsDefaulted(h[i]) && IsDefaulted(h[j]);
    if i < j {
      ProtocolFrozen(h, i, j - 1);
      assert Accepts(h[j - 1], h[j]);
    }
  }

  /** The reconciler's writes: the endpoint once, the VPC once, and anything that admission does not compare. */
  lemma ReconcilerWritesAccepted(c: Cluster, endpoint: Endpoint, network: Network)
    requires IsDefaulted(c) && c.fieldsValid
    requires c.endpoint == ZeroEndpoint || endpoint == c.endpoint
    requires c.network.vpc.id == "" || network.vpc.id == c.network.vpc.id
    ensures Accepts(c, Defaulted(c.(endpoint := endpoint, network := network)))
  {}

  /** Adding a secondary load balancer is accepted only as internet-facing, which is not its default. */
  lemma SecondaryAddedIff(c: Cluster, secondary: LoadBalancer)
    requires IsDefaulted(c) && c.fieldsValid && c.secondary.None?
    ensures Accepts(c, Defaulted(c.(secondary := Some(secondary)))) <==> secondary.scheme == Some(InternetFacing)
  {
    var d := Defaulted(c.(secondary := Some(secondary)));
    assert d.primary == c.primary;
    assert d.secondary.value.scheme == if secondary.scheme.None? then Some(Internal) else secondary.scheme;
  }

  /** An object that was never defaulted may get any primary load balancer: its pair is lost from the map. */
  lemma UndefaultedPrimaryUnchecked(c: Cluster, primary: LoadBalancer)
    requires c.primary.None? && c.secondary.None? && c.fieldsValid
    ensures Accepts(c, c.(primary := Some(primary)))
  {}
}
