/**
 The rules for load balancers at creation of an AWSCluster, and what becomes of them in updates.

 webhooks/awscluster_webhook.go: validateControlPlaneLBs, validateTargetGroupIPType, validateIngressRules.
 */
module ClusterCreation {
  import opened Basics
  import opened ClusterAdmission

  // ---------------------------------------------------------------------------------------------
  // The rules
  // ---------------------------------------------------------------------------------------------

  predicate IPTypeOk(ipv6: bool, lb: LoadBalancer, ipType: Option<string>) {
    ipType.Some? ==> lb.kind != Classic && (ipType.value == "ipv6" ==> ipv6)
  }

  predicate ListenersOk(ipv6: bool, lb: LoadBalancer, listeners: seq<Listener>) {
    forall k | 0 <= k < |listeners| :: IPTypeOk(ipv6, lb, listeners[k].targetGroupIPType)
  }

  /** Sources of different kinds exclude each other. */
  predicate RuleOk(r: IngressRule) {
    if r.natGatewaysIPsSource then
      r.cidrBlocks.None? && r.ipv6CidrBlocks.None? && r.sourceSecurityGroupIDs.None? && r.sourceSecurityGroupRoles.None?
    else
      (r.cidrBlocks.None? && r.ipv6CidrBlocks.None?) || (r.sourceSecurityGroupIDs.None? && r.sourceSecurityGroupRoles.None?)
  }

  predicate RulesOk(rules: seq<IngressRule>) {
    forall k | 0 <= k < |rules| :: RuleOk(rules[k])
  }

  predicate SettingsOk(ipv6: bool, lb: LoadBalancer) {
    IPTypeOk(ipv6, lb, lb.targetGroupIPType) && ListenersOk(ipv6, lb, lb.additionalListeners) && RulesOk(lb.ingressRules)
  }

  /** Nothing may be configured on a disabled load balancer. */
  predicate NothingConfigured(lb: LoadBalancer) {
    && lb.name.None? && !lb.crossZoneLoadBalancing && lb.subnets == [] && lb.healthCheckProtocol.None?
    && lb.additionalSecurityGroups == [] && lb.additionalListeners == [] && lb.ingressRules == []
    && !lb.preserveClientIP && !lb.disableHostsRewrite && lb.targetGroupIPType.None?
  }

  predicate PrimaryOk(ipv6: bool, lb: LoadBalancer) {
    SettingsOk(ipv6, lb) && (lb.kind == Disabled ==> NothingConfigured(lb))
  }

  /** The secondary beside a primary: nothing is said of the primary's name. */
  predicate SecondaryOk(ipv6: bool, primary: LoadBalancer, secondary: LoadBalancer) {
    && secondary.name.Some? && secondary.name.value != ""
    && secondary.scheme.Some? && secondary.scheme != primary.scheme
    && secondary.kind == NLB
    && SettingsOk(ipv6, secondary)
  }

  predicate LoadBalancersAdmitted(c: Cluster)
    requires IsDefaulted(c)
  {
    && PrimaryOk(c.network.vpc.ipv6, c.primary.value)
    && (c.secondary.Some? ==> SecondaryOk(c.network.vpc.ipv6, c.primary.value, c.secondary.value))
  }

  // ---------------------------------------------------------------------------------------------
  // The validators
  // ---------------------------------------------------------------------------------------------

  datatype Error = IPTypeOnClassic | IPTypeWithoutIPv6 | RuleSources | DisabledButConfigured | NameEmpty | NamesEqual
                 | SchemesEqual | NotNLB

  method ValidateTargetGroupIPType(ipv6: bool, ipType: Option<string>, lb: LoadBalancer) returns (errs: seq<Error>)
    ensures errs == [] <==> IPTypeOk(ipv6, lb, ipType)
    ensures NamesEqual !in errs
  {
    errs := [];
    if ipType.Some? {
      if lb.kind == Classic {
        errs := errs + [IPTypeOnClassic];
      }
      if ipType.value == "ipv6" && !ipv6 {
        errs := errs + [IPTypeWithoutIPv6];
      }
    }
  }

  method ValidateListeners(ipv6: bool, lb: LoadBalancer) returns (errs: seq<Error>)
    ensures errs == [] <==> ListenersOk(ipv6, lb, lb.additionalListeners)
    ensures NamesEqual !in errs
  {
    var listeners := lb.additionalListeners;
    errs := [];
    for k := 0 to |listeners|
      invariant errs == [] <==> ListenersOk(ipv6, lb, listeners[..k])
      invariant NamesEqual !in errs
    {
      var more: seq<Error> := [];
      if listeners[k].targetGroupIPType.Some? {
        more := ValidateTargetGroupIPType(ipv6, listeners[k].targetGroupIPType, lb);
      }
      assert listeners[..k + 1] == listeners[..k] + [listeners[k]];
      assert ListenersOk(ipv6, lb, listeners[..k + 1]) <==>
             ListenersOk(ipv6, lb, listeners[..k]) && IPTypeOk(ipv6, lb, listeners[k].targetGroupIPType) by {
        ListenersPush(ipv6, lb, listeners[..k], listeners[k]);
      }
      errs := errs + more;
    }
    assert listeners[..|listeners|] == listeners;
  }

  lemma ListenersPush(ipv6: bool, lb: LoadBalancer, some: seq<Listener>, one: Listener)
    ensures ListenersOk(ipv6, lb, some + [one]) <==> ListenersOk(ipv6, lb, some) && IPTypeOk(ipv6, lb, one.targetGroupIPType)
  {
    var all := some + [one];
    assert all[|some|] == one;
    assert forall k | 0 <= k < |some| :: all[k] == some[k];
  }

  method ValidateIngressRules(rules: seq<IngressRule>) returns (errs: seq<Error>)
    ensures errs == [] <==> RulesOk(rules)
    ensures NamesEqual !in errs
  {
    errs := [];
    for k := 0 to |rules|
      invariant errs == [] <==> forall j | 0 <= j < k :: RuleOk(rules[j])
      invariant NamesEqual !in errs
    {
      var rule := rules[k];
      if rule.natGatewaysIPsSource {
        if rule.cidrBlocks.Some? || rule.ipv6CidrBlocks.Some? || rule.sourceSecurityGroupIDs.Some? || rule.sourceSecurityGroupRoles.Some? {
          errs := errs + [RuleSources];
        }
      } else {
        if (rule.cidrBlocks.Some? || rule.ipv6CidrBlocks.Some?)
           && (rule.sourceSecurityGroupIDs.Some? || rule.sourceSecurityGroupRoles.Some?) {
          errs := errs + [RuleSources];
        }
      }
    }
  }

  method ValidateSettings(ipv6: bool, lb: LoadBalancer) returns (errs: seq<Error>)
    ensures errs == [] <==> SettingsOk(ipv6, lb)
    ensures NamesEqual !in errs
  {
    errs := [];
    if lb.targetGroupIPType.Some? {
      errs := ValidateTargetGroupIPType(ipv6, lb.targetGroupIPType, lb);
    }
    var listeners := ValidateListeners(ipv6, lb);
    errs := errs + listeners;
    var rules := ValidateIngressRules(lb.ingressRules);
    errs := errs + rules;
  }

  method ValidateDisabled(lb: LoadBalancer) returns (errs: seq<Error>)
    ensures errs == [] <==> NothingConfigured(lb)
    ensures NamesEqual !in errs
  {
    errs := [];
    if lb.name.Some? {
      errs := errs + [DisabledButConfigured];
    }
    if lb.crossZoneLoadBalancing {
      errs := errs + [DisabledButConfigured];
    }
    if |lb.subnets| > 0 {
      errs := errs + [DisabledButConfigured];
    }
    if lb.healthCheckProtocol.Some? {
      errs := errs + [DisabledButConfigured];
    }
    if |lb.additionalSecurityGroups| > 0 {
      errs := errs + [DisabledButConfigured];
    }
    if |lb.additionalListeners| > 0 {
      errs := errs + [DisabledButConfigured];
    }
    if |lb.ingressRules| > 0 {
      errs := errs + [DisabledButConfigured];
    }
    if lb.preserveClientIP {
      errs := errs + [DisabledButConfigured];
    }
    if lb.disableHostsRewrite {
      errs := errs + [DisabledButConfigured];
    }
    if lb.targetGroupIPType.Some? {
      errs := errs + [DisabledButConfigured];
    }
  }

  // ---------------------------------------------------------------------------------------------
  // Names are pointers
  // ---------------------------------------------------------------------------------------------

  /** A string that a field points to. */
  class StringPointer {
    const value: string

    constructor (value: string)
      ensures this.value == value
    {
      this.value := value;
    }
  }

  /** The field of a decoded object. */
  predicate PointsTo(p: StringPointer?, name: Option<string>) {
    (p == null <==> name.None?) && (p != null ==> p.value == name.value)
  }

  /** Decoding gives every field a string of its own. */
  method Decode(name: Option<string>) returns (p: StringPointer?)
    ensures PointsTo(p, name) && (p != null ==> fresh(p))
  {
    p := null;
    if name.Some? {
      p := new StringPointer(name.value);
    }
  }

  /** The rules for the secondary; the two names are compared as the pointers they are. */
  method ValidateSecondary(ipv6: bool, primary: LoadBalancer, primaryName: StringPointer?, secondary: LoadBalancer, secondaryName: StringPointer?)
    returns (errs: seq<Error>)
    requires PointsTo(primaryName, primary.name) && PointsTo(secondaryName, secondary.name) && secondary.scheme.Some?
    ensures errs == [] <==> SecondaryOk(ipv6, primary, secondary) && secondaryName != primaryName
    ensures NamesEqual in errs <==> secondaryName == primaryName
  {
    errs := [];
    if secondaryName == null || secondaryName.value == "" {
      errs := errs + [NameEmpty];
    }
    if secondaryName == primaryName {
      errs := errs + [NamesEqual];
    }
    if primary.scheme.Some? && secondary.scheme.value == primary.scheme.value {
      errs := errs + [SchemesEqual];
    }
    if secondary.kind != NLB {
      errs := errs + [NotNLB];
    }
    var settings := ValidateSettings(ipv6, secondary);
    errs := errs + settings;
  }

  /**
   validateControlPlaneLBs on a decoded and defaulted object.  The rule that the names must differ refuses an object
   exactly when both are missing, in which case the secondary's name is refused as empty anyway.
   */
  method ValidateControlPlaneLBs(c: Cluster) returns (errs: seq<Error>)
    requires IsDefaulted(c)
    ensures errs == [] <==> LoadBalancersAdmitted(c)
    ensures NamesEqual in errs <==> c.secondary.Some? && c.primary.value.name.None? && c.secondary.value.name.None?
  {
    var ipv6 := c.network.vpc.ipv6;
    var primary := c.primary.value;
    errs := ValidateSettings(ipv6, primary);
    if primary.kind == Disabled {
      var disabled := ValidateDisabled(primary);
      errs := errs + disabled;
    }
    if c.secondary.Some? {
      var primaryName := Decode(primary.name);
      var secondaryName := Decode(c.secondary.value.name);
      var more := ValidateSecondary(ipv6, primary, primaryName, c.secondary.value, secondaryName);
      errs := errs + more;
    }
  }

  /** So whatever the primary is called, the secondary's name included, makes no difference. */
  lemma EqualNamesAdmitted(c: Cluster, name: Option<string>)
    requires IsDefaulted(c) && c.primary.value.kind != Disabled
    ensures var renamed := c.(primary := Some(c.primary.value.(name := name)));
            IsDefaulted(renamed) && (LoadBalancersAdmitted(renamed) <==> LoadBalancersAdmitted(c))
  {
    var ipv6, was, now := c.network.vpc.ipv6, c.primary.value, c.primary.value.(name := name);
    assert ListenersOk(ipv6, was, was.additionalListeners) <==> ListenersOk(ipv6, now, now.additionalListeners) by {
      assert forall t :: IPTypeOk(ipv6, was, t) <==> IPTypeOk(ipv6, now, t);
    }
  }

  // ---------------------------------------------------------------------------------------------
  // Updates
  // ---------------------------------------------------------------------------------------------

  /**
   The rules of creation are not checked again.  An accepted update of an admitted object breaks them exactly when it
   configures a disabled primary, gives either load balancer settings they refuse, changes the secondary's type, or adds
   a secondary without name or beside an internet-facing primary.
   */
  lemma CreationRulesKeptIff(a: Cluster, b: Cluster)
    requires IsDefaulted(a) && IsDefaulted(b) && LoadBalancersAdmitted(a) && Accepts(a, b)
    ensures LoadBalancersAdmitted(b) <==>
            && (a.primary.value.kind == Disabled ==> NothingConfigured(b.primary.value))
            && SettingsOk(b.network.vpc.ipv6, b.primary.value)
            && (b.secondary.Some? ==> b.secondary.value.kind == NLB && SettingsOk(b.network.vpc.ipv6, b.secondary.value))
            && (a.secondary.None? && b.secondary.Some? ==>
                  b.secondary.value.name.Some? && b.secondary.value.name.value != "" && a.primary.value.scheme != Some(InternetFacing))
  {}

  /** A secondary can be turned into a classic load balancer, which creation would refuse. */
  lemma UpdateSkipsRules(c: Cluster)
    requires IsDefaulted(c) && c.fieldsValid && c.secondary.Some? && LoadBalancersAdmitted(c)
    ensures var d := c.(secondary := Some(c.secondary.value.(kind := Classic)));
            IsDefaulted(d) && Accepts(c, d) && !LoadBalancersAdmitted(d)
  {}
}
