/**
 Conversion of AWSCluster between the two API versions.

 api/v1beta1/awscluster_conversion.go, api/v1beta1/conversion.go and the generated functions they call.
 */
module ClusterConversion {
  import opened Basics
  import opened ApiValues
  import opened MachineConversion
  import V1Beta1
  import V1Beta2

  // ---------------------------------------------------------------------------------------------
  // Field by field
  // ---------------------------------------------------------------------------------------------

  function DownIngressRule(x: V1Beta2.IngressRule): V1Beta1.IngressRule {
    V1Beta1.IngressRule(
      description := x.description, protocol := x.protocol, fromPort := x.fromPort, toPort := x.toPort,
      cidrBlocks := x.cidrBlocks, ipv6CidrBlocks := x.ipv6CidrBlocks,
      sourceSecurityGroupIDs := x.sourceSecurityGroupIDs)
  }

  function UpIngressRule(x: V1Beta1.IngressRule): V1Beta2.IngressRule {
    V1Beta2.IngressRule(
      description := x.description, protocol := x.protocol, fromPort := x.fromPort, toPort := x.toPort,
      cidrBlocks := x.cidrBlocks, ipv6CidrBlocks := x.ipv6CidrBlocks,
      sourceSecurityGroupIDs := x.sourceSecurityGroupIDs, sourceSecurityGroupRoles := Zero,
      natGatewaysIPsSource := Zero)
  }

  function DownIngressRules(x: Option<seq<V1Beta2.IngressRule>>): (r: Option<seq<V1Beta1.IngressRule>>)
    ensures r.None? <==> x.None?
    ensures x.Some? ==> |r.value| == |x.value| && forall k | 0 <= k < |x.value| :: r.value[k] == DownIngressRule(x.value[k])
  {
    if x.None? then None else Some(seq(|x.value|, k requires 0 <= k < |x.value| => DownIngressRule(x.value[k])))
  }

  function UpIngressRules(x: Option<seq<V1Beta1.IngressRule>>): (r: Option<seq<V1Beta2.IngressRule>>)
    ensures r.None? <==> x.None?
    ensures x.Some? ==> |r.value| == |x.value| && forall k | 0 <= k < |x.value| :: r.value[k] == UpIngressRule(x.value[k])
  {
    if x.None? then None else Some(seq(|x.value|, k requires 0 <= k < |x.value| => UpIngressRule(x.value[k])))
  }

  function DownSecurityGroup(x: V1Beta2.SecurityGroup): V1Beta1.SecurityGroup {
    V1Beta1.SecurityGroup(
      id := x.id, name := x.name, ingressRules := DownIngressRules(x.ingressRules), tags := x.tags)
  }

  function UpSecurityGroup(x: V1Beta1.SecurityGroup): V1Beta2.SecurityGroup {
    V1Beta2.SecurityGroup(
      id := x.id, name := x.name, ingressRules := UpIngressRules(x.ingressRules), tags := x.tags)
  }

  function DownSecurityGroups(x: Option<map<Value, V1Beta2.SecurityGroup>>): (r: Option<map<Value, V1Beta1.SecurityGroup>>) {
    if x.None? then None else Some(map k | k in x.value :: DownSecurityGroup(x.value[k]))
  }

  function UpSecurityGroups(x: Option<map<Value, V1Beta1.SecurityGroup>>): (r: Option<map<Value, V1Beta2.SecurityGroup>>) {
    if x.None? then None else Some(map k | k in x.value :: UpSecurityGroup(x.value[k]))
  }

  function DownIPv6(x: V1Beta2.IPv6): V1Beta1.IPv6 {
    V1Beta1.IPv6(
      cidrBlock := x.cidrBlock, poolID := x.poolID, egressOnlyInternetGatewayID := x.egressOnlyInternetGatewayID)
  }

  function UpIPv6(x: V1Beta1.IPv6): V1Beta2.IPv6 {
    V1Beta2.IPv6(
      cidrBlock := x.cidrBlock, poolID := x.poolID, egressOnlyInternetGatewayID := x.egressOnlyInternetGatewayID,
      ipamPool := None)
  }

  function DownVPCSpec(x: V1Beta2.VPCSpec): V1Beta1.VPCSpec {
    V1Beta1.VPCSpec(
      id := x.id, cidrBlock := x.cidrBlock, ipv6 := if x.ipv6.None? then None else Some(DownIPv6(x.ipv6.value)),
      internetGatewayID := x.internetGatewayID, tags := x.tags,
      availabilityZoneUsageLimit := x.availabilityZoneUsageLimit,
      availabilityZoneSelection := x.availabilityZoneSelection)
  }

  function UpVPCSpec(x: V1Beta1.VPCSpec): V1Beta2.VPCSpec {
    V1Beta2.VPCSpec(
      id := x.id, cidrBlock := x.cidrBlock, secondaryCidrBlocks := Zero, ipamPool := None,
      ipv6 := if x.ipv6.None? then None else Some(UpIPv6(x.ipv6.value)), internetGatewayID := x.internetGatewayID,
      carrierGatewayID := Zero, tags := x.tags, availabilityZoneUsageLimit := x.availabilityZoneUsageLimit,
      availabilityZoneSelection := x.availabilityZoneSelection, emptyRoutesDefaultVPCSecurityGroup := Zero,
      privateDNSHostnameTypeOnLaunch := Zero, elasticIPPool := None, subnetSchema := Zero)
  }

  function DownSubnetSpec(x: V1Beta2.SubnetSpec): V1Beta1.SubnetSpec {
    V1Beta1.SubnetSpec(
      id := x.id, cidrBlock := x.cidrBlock, ipv6CidrBlock := x.ipv6CidrBlock, availabilityZone := x.availabilityZone,
      isPublic := x.isPublic, isIPv6 := x.isIPv6, routeTableID := x.routeTableID, natGatewayID := x.natGatewayID,
      tags := x.tags)
  }

  function UpSubnetSpec(x: V1Beta1.SubnetSpec): V1Beta2.SubnetSpec {
    V1Beta2.SubnetSpec(
      id := x.id, resourceID := Zero, cidrBlock := x.cidrBlock, ipv6CidrBlock := x.ipv6CidrBlock,
      availabilityZone := x.availabilityZone, isPublic := x.isPublic, isIPv6 := x.isIPv6,
      routeTableID := x.routeTableID, natGatewayID := x.natGatewayID, tags := x.tags, zoneType := Zero,
      parentZoneName := Zero)
  }

  function DownSubnetSpecs(x: Option<seq<V1Beta2.SubnetSpec>>): (r: Option<seq<V1Beta1.SubnetSpec>>)
    ensures r.None? <==> x.None?
    ensures x.Some? ==> |r.value| == |x.value| && forall k | 0 <= k < |x.value| :: r.value[k] == DownSubnetSpec(x.value[k])
  {
    if x.None? then None else Some(seq(|x.value|, k requires 0 <= k < |x.value| => DownSubnetSpec(x.value[k])))
  }

  function UpSubnetSpecs(x: Option<seq<V1Beta1.SubnetSpec>>): (r: Option<seq<V1Beta2.SubnetSpec>>)
    ensures r.None? <==> x.None?
    ensures x.Some? ==> |r.value| == |x.value| && forall k | 0 <= k < |x.value| :: r.value[k] == UpSubnetSpec(x.value[k])
  {
    if x.None? then None else Some(seq(|x.value|, k requires 0 <= k < |x.value| => UpSubnetSpec(x.value[k])))
  }

  function DownNetworkSpec(x: V1Beta2.NetworkSpec): V1Beta1.NetworkSpec {
    V1Beta1.NetworkSpec(
      vpc := DownVPCSpec(x.vpc), subnets := DownSubnetSpecs(x.subnets), cni := x.cni,
      securityGroupOverrides := x.securityGroupOverrides)
  }

  function UpNetworkSpec(x: V1Beta1.NetworkSpec): V1Beta2.NetworkSpec {
    V1Beta2.NetworkSpec(
      vpc := UpVPCSpec(x.vpc), subnets := UpSubnetSpecs(x.subnets), cni := x.cni,
      securityGroupOverrides := x.securityGroupOverrides, additionalControlPlaneIngressRules := Zero,
      additionalNodeIngressRules := Zero, nodePortIngressRuleCidrBlocks := Zero)
  }

  function DownAWSLoadBalancerSpec(x: V1Beta2.AWSLoadBalancerSpec): V1Beta1.AWSLoadBalancerSpec {
    V1Beta1.AWSLoadBalancerSpec(
      name := x.name, scheme := x.scheme, crossZoneLoadBalancing := x.crossZoneLoadBalancing, subnets := x.subnets,
      healthCheckProtocol := x.healthCheckProtocol, additionalSecurityGroups := x.additionalSecurityGroups)
  }

  function UpAWSLoadBalancerSpec(x: V1Beta1.AWSLoadBalancerSpec): V1Beta2.AWSLoadBalancerSpec {
    V1Beta2.AWSLoadBalancerSpec(
      name := x.name, scheme := x.scheme, crossZoneLoadBalancing := x.crossZoneLoadBalancing, subnets := x.subnets,
      healthCheckProtocol := x.healthCheckProtocol, healthCheck := Zero,
      additionalSecurityGroups := x.additionalSecurityGroups, additionalListeners := Zero, ingressRules := Zero,
      loadBalancerType := Zero, disableHostsRewrite := Zero, preserveClientIP := Zero, targetGroupIPType := Zero)
  }

  function DownS3Bucket(x: V1Beta2.S3Bucket): V1Beta1.S3Bucket {
    V1Beta1.S3Bucket(
      controlPlaneIAMInstanceProfile := x.controlPlaneIAMInstanceProfile,
      nodesIAMInstanceProfiles := x.nodesIAMInstanceProfiles, name := x.name)
  }

  function UpS3Bucket(x: V1Beta1.S3Bucket): V1Beta2.S3Bucket {
    V1Beta2.S3Bucket(
      controlPlaneIAMInstanceProfile := x.controlPlaneIAMInstanceProfile,
      nodesIAMInstanceProfiles := x.nodesIAMInstanceProfiles, presignedURLDuration := Zero, name := x.name,
      bestEffortDeleteObjects := Zero)
  }

  function DownAWSClusterSpec(x: V1Beta2.AWSClusterSpec): V1Beta1.AWSClusterSpec {
    V1Beta1.AWSClusterSpec(
      networkSpec := DownNetworkSpec(x.networkSpec), region := x.region, sshKeyName := x.sshKeyName,
      controlPlaneEndpoint := x.controlPlaneEndpoint, additionalTags := x.additionalTags,
      controlPlaneLoadBalancer := if x.controlPlaneLoadBalancer.None? then None else Some(DownAWSLoadBalancerSpec(x.controlPlaneLoadBalancer.value)),
      imageLookupFormat := x.imageLookupFormat, imageLookupOrg := x.imageLookupOrg,
      imageLookupBaseOS := x.imageLookupBaseOS, bastion := x.bastion, identityRef := x.identityRef,
      s3Bucket := if x.s3Bucket.None? then None else Some(DownS3Bucket(x.s3Bucket.value)))
  }

  function UpAWSClusterSpec(x: V1Beta1.AWSClusterSpec): V1Beta2.AWSClusterSpec {
    V1Beta2.AWSClusterSpec(
      networkSpec := UpNetworkSpec(x.networkSpec), region := x.region, partition := Zero, sshKeyName := x.sshKeyName,
      controlPlaneEndpoint := x.controlPlaneEndpoint, additionalTags := x.additionalTags,
      controlPlaneLoadBalancer := if x.controlPlaneLoadBalancer.None? then None else Some(UpAWSLoadBalancerSpec(x.controlPlaneLoadBalancer.value)),
      secondaryControlPlaneLoadBalancer := None, imageLookupFormat := x.imageLookupFormat,
      imageLookupOrg := x.imageLookupOrg, imageLookupBaseOS := x.imageLookupBaseOS, bastion := x.bastion,
      identityRef := x.identityRef, s3Bucket := if x.s3Bucket.None? then None else Some(UpS3Bucket(x.s3Bucket.value)))
  }

  function DownLoadBalancer(x: V1Beta2.LoadBalancer): V1Beta1.ClassicELB {
    V1Beta1.ClassicELB(
      name := x.name, dnsName := x.dnsName, scheme := x.scheme, availabilityZones := x.availabilityZones,
      subnetIDs := x.subnetIDs, securityGroupIDs := x.securityGroupIDs, listeners := x.classicELBListeners,
      healthCheck := x.healthCheck, attributes := x.classicElbAttributes, tags := x.tags)
  }

  function UpLoadBalancer(x: V1Beta1.ClassicELB): V1Beta2.LoadBalancer {
    V1Beta2.LoadBalancer(
      arn := Zero, name := x.name, dnsName := x.dnsName, scheme := x.scheme, availabilityZones := x.availabilityZones,
      subnetIDs := x.subnetIDs, securityGroupIDs := x.securityGroupIDs, classicELBListeners := x.listeners,
      healthCheck := x.healthCheck, classicElbAttributes := x.attributes, tags := x.tags, elbListeners := Zero,
      elbAttributes := Zero, loadBalancerType := Zero, loadBalancerIPAddressType := Zero)
  }

  function DownNetworkStatus(x: V1Beta2.NetworkStatus): V1Beta1.NetworkStatus {
    V1Beta1.NetworkStatus(
      securityGroups := DownSecurityGroups(x.securityGroups), apiServerELB := DownLoadBalancer(x.apiServerELB))
  }

  function UpNetworkStatus(x: V1Beta1.NetworkStatus): V1Beta2.NetworkStatus {
    V1Beta2.NetworkStatus(
      securityGroups := UpSecurityGroups(x.securityGroups), apiServerELB := UpLoadBalancer(x.apiServerELB),
      secondaryAPIServerELB := V1Beta2.ZeroLoadBalancer(), natGatewaysIPs := Zero)
  }

  function DownInstance(x: V1Beta2.Instance): V1Beta1.Instance {
    V1Beta1.Instance(
      id := x.id, state := x.state, instanceType := x.instanceType, subnetID := x.subnetID, imageID := x.imageID,
      sshKeyName := x.sshKeyName, securityGroupIDs := x.securityGroupIDs, userData := x.userData,
      iamProfile := x.iamProfile, addresses := x.addresses, privateIP := x.privateIP, publicIP := x.publicIP,
      enaSupport := x.enaSupport, ebsOptimized := x.ebsOptimized, rootVolume := x.rootVolume,
      nonRootVolumes := x.nonRootVolumes, networkInterfaces := x.networkInterfaces, tags := x.tags,
      availabilityZone := x.availabilityZone, spotMarketOptions := x.spotMarketOptions, tenancy := x.tenancy,
      volumeIDs := x.volumeIDs)
  }

  function UpInstance(x: V1Beta1.Instance): V1Beta2.Instance {
    V1Beta2.Instance(
      id := x.id, state := x.state, instanceType := x.instanceType, subnetID := x.subnetID, imageID := x.imageID,
      sshKeyName := x.sshKeyName, securityGroupIDs := x.securityGroupIDs, userData := x.userData,
      iamProfile := x.iamProfile, addresses := x.addresses, privateIP := x.privateIP, ipv6Address := Zero,
      publicIP := x.publicIP, enaSupport := x.enaSupport, ebsOptimized := x.ebsOptimized, rootVolume := x.rootVolume,
      nonRootVolumes := x.nonRootVolumes, networkInterfaces := x.networkInterfaces, networkInterfaceType := Zero,
      assignPrimaryIPv6 := Zero, tags := x.tags, availabilityZone := x.availabilityZone,
      spotMarketOptions := x.spotMarketOptions, placementGroupName := Zero, placementGroupPartition := Zero,
      tenancy := x.tenancy, volumeIDs := x.volumeIDs, instanceMetadataOptions := Zero, privateDNSName := Zero,
      publicIPOnLaunch := Zero, capacityReservationID := Zero, marketType := Zero, hostAffinity := Zero,
      hostID := Zero, dynamicHostAllocation := Zero, capacityReservationPreference := Zero, cpuOptions := Zero)
  }

  function DownAWSClusterStatus(x: V1Beta2.AWSClusterStatus): V1Beta1.AWSClusterStatus {
    V1Beta1.AWSClusterStatus(
      ready := x.ready, network := DownNetworkStatus(x.network), failureDomains := x.failureDomains,
      bastion := if x.bastion.None? then None else Some(DownInstance(x.bastion.value)), conditions := x.conditions)
  }

  function UpAWSClusterStatus(x: V1Beta1.AWSClusterStatus): V1Beta2.AWSClusterStatus {
    V1Beta2.AWSClusterStatus(
      ready := x.ready, network := UpNetworkStatus(x.network), failureDomains := x.failureDomains,
      bastion := if x.bastion.None? then None else Some(UpInstance(x.bastion.value)), conditions := x.conditions)
  }

  // ---------------------------------------------------------------------------------------------
  // Restoring what the spoke cannot hold
  // ---------------------------------------------------------------------------------------------

  function RestoreLoadBalancerSpec(restored: Option<V1Beta2.AWSLoadBalancerSpec>, dst: Option<V1Beta2.AWSLoadBalancerSpec>): Option<V1Beta2.AWSLoadBalancerSpec> {
    if restored.None? then dst else
    var from, start := restored.value, if dst.None? then V1Beta2.ZeroLoadBalancerSpec() else dst.value;
    Some(start.(name := from.name,
                healthCheckProtocol := from.healthCheckProtocol,
                healthCheck := from.healthCheck,
                loadBalancerType := from.loadBalancerType,
                disableHostsRewrite := from.disableHostsRewrite,
                preserveClientIP := from.preserveClientIP,
                ingressRules := from.ingressRules,
                additionalListeners := from.additionalListeners,
                additionalSecurityGroups := from.additionalSecurityGroups,
                scheme := from.scheme,
                crossZoneLoadBalancing := from.crossZoneLoadBalancing,
                subnets := from.subnets,
                targetGroupIPType := from.targetGroupIPType))
  }

  function RestoreLoadBalancerStatus(restored: V1Beta2.LoadBalancer, dst: V1Beta2.LoadBalancer): V1Beta2.LoadBalancer {
    dst.(arn := restored.arn,
         loadBalancerType := restored.loadBalancerType,
         loadBalancerIPAddressType := restored.loadBalancerIPAddressType,
         elbAttributes := restored.elbAttributes,
         elbListeners := restored.elbListeners,
         name := restored.name,
         dnsName := restored.dnsName,
         scheme := restored.scheme,
         subnetIDs := restored.subnetIDs,
         securityGroupIDs := restored.securityGroupIDs,
         healthCheck := restored.healthCheck,
         classicElbAttributes := restored.classicElbAttributes,
         tags := restored.tags,
         classicELBListeners := restored.classicELBListeners,
         availabilityZones := restored.availabilityZones)
  }

  function RestoreBastion(restored: V1Beta2.Instance, dst: V1Beta2.Instance): V1Beta2.Instance {
    dst.(instanceMetadataOptions := restored.instanceMetadataOptions,
         placementGroupName := restored.placementGroupName,
         placementGroupPartition := restored.placementGroupPartition,
         privateDNSName := restored.privateDNSName,
         publicIPOnLaunch := restored.publicIPOnLaunch,
         networkInterfaceType := restored.networkInterfaceType,
         assignPrimaryIPv6 := restored.assignPrimaryIPv6,
         capacityReservationID := restored.capacityReservationID,
         marketType := restored.marketType,
         hostAffinity := restored.hostAffinity,
         hostID := restored.hostID,
         capacityReservationPreference := restored.capacityReservationPreference,
         cpuOptions := restored.cpuOptions,
         ipv6Address := restored.ipv6Address,
         dynamicHostAllocation := if restored.dynamicHostAllocation != Zero then restored.dynamicHostAllocation else dst.dynamicHostAllocation)
  }

  function RestoreIPAMPool(restored: V1Beta2.IPAMPool, dst: Option<V1Beta2.IPAMPool>): V1Beta2.IPAMPool {
    var start := if dst.None? then V1Beta2.IPAMPool(Zero, Zero, Zero) else dst.value;
    start.(id := restored.id, name := restored.name, netmaskLength := restored.netmaskLength)
  }

  /** The saved copy has a pool for IPv6 addresses. */
  predicate HasIPv6Pool(vpc: V1Beta2.VPCSpec) {
    vpc.ipv6.Some? && vpc.ipv6.value.ipamPool.Some?
  }

  /** Both pools of a VPC; the code does this twice. */
  function RestorePools(restored: V1Beta2.VPCSpec, dst: V1Beta2.VPCSpec): V1Beta2.VPCSpec
    requires HasIPv6Pool(restored) ==> dst.ipv6.Some?
  {
    var one := if restored.ipamPool.None? then dst
               else dst.(ipamPool := Some(RestoreIPAMPool(restored.ipamPool.value, dst.ipamPool)));
    if !HasIPv6Pool(restored) then one else
    one.(ipv6 := Some(one.ipv6.value.(
         ipamPool := Some(RestoreIPAMPool(restored.ipv6.value.ipamPool.value, one.ipv6.value.ipamPool)))))
  }

  function RestoreVPC(restored: V1Beta2.VPCSpec, dst: V1Beta2.VPCSpec): V1Beta2.VPCSpec {
    dst.(emptyRoutesDefaultVPCSecurityGroup := restored.emptyRoutesDefaultVPCSecurityGroup,
         privateDNSHostnameTypeOnLaunch := restored.privateDNSHostnameTypeOnLaunch,
         carrierGatewayID := restored.carrierGatewayID,
         subnetSchema := restored.subnetSchema,
         secondaryCidrBlocks := restored.secondaryCidrBlocks,
         elasticIPPool := RestoreElasticIPPool(restored.elasticIPPool, dst.elasticIPPool))
  }

  // ---------------------------------------------------------------------------------------------
  // Subnets
  // ---------------------------------------------------------------------------------------------

  /** What one saved subnet does to one converted subnet. */
  function Overlay(from: V1Beta2.SubnetSpec, dst: V1Beta2.SubnetSpec): V1Beta2.SubnetSpec {
    if from.id != dst.id then dst else
    dst.(resourceID := if from.resourceID != Zero then from.resourceID else dst.resourceID,
         parentZoneName := if from.parentZoneName != Zero then from.parentZoneName else dst.parentZoneName,
         zoneType := if from.zoneType != Zero then from.zoneType else dst.zoneType)
  }

  /** What all the saved subnets, in order, do to one converted subnet. */
  function OverlayAll(restored: seq<V1Beta2.SubnetSpec>, dst: V1Beta2.SubnetSpec): V1Beta2.SubnetSpec {
    if restored == [] then dst else
    Overlay(restored[|restored| - 1], OverlayAll(restored[..|restored| - 1], dst))
  }

  /** The inner loop, in place. */
  method OverlayOne(from: V1Beta2.SubnetSpec, dst: array<V1Beta2.SubnetSpec>)
    modifies dst
    ensures forall i | 0 <= i < dst.Length :: dst[i] == Overlay(from, old(dst[i]))
  {
    for i := 0 to dst.Length
      invariant forall k | 0 <= k < dst.Length :: dst[k] == if k < i then Overlay(from, old(dst[k])) else old(dst[k])
    {
      var dstSubnet := dst[i];
      if dstSubnet.id == from.id {
        if from.resourceID != Zero {
          dstSubnet := dstSubnet.(resourceID := from.resourceID);
        }
        if from.parentZoneName != Zero {
          dstSubnet := dstSubnet.(parentZoneName := from.parentZoneName);
        }
        if from.zoneType != Zero {
          dstSubnet := dstSubnet.(zoneType := from.zoneType);
        }
        dst[i] := dstSubnet;
      }
    }
  }

  /** The outer loop. */
  method RestoreSubnets(restored: seq<V1Beta2.SubnetSpec>, dst: array<V1Beta2.SubnetSpec>)
    modifies dst
    ensures forall i | 0 <= i < dst.Length :: dst[i] == OverlayAll(restored, old(dst[i]))
  {
    for n := 0 to |restored|
      invariant forall i | 0 <= i < dst.Length :: dst[i] == OverlayAll(restored[..n], old(dst[i]))
    {
      OverlayOne(restored[n], dst);
      assert restored[..n + 1][..n] == restored[..n];
    }
    assert restored[..|restored|] == restored;
  }

  /** Converting down and plainly up again forgets these three fields of a subnet. */
  function Bare(s: V1Beta2.SubnetSpec): V1Beta2.SubnetSpec {
    s.(resourceID := Zero, parentZoneName := Zero, zoneType := Zero)
  }

  predicate SameForgotten(a: V1Beta2.SubnetSpec, b: V1Beta2.SubnetSpec) {
    a.resourceID == b.resourceID && a.parentZoneName == b.parentZoneName && a.zoneType == b.zoneType
  }

  /** Subnets with the same ID agree on the fields that conversion forgets; unique IDs are enough. */
  predicate SubnetsAgree(s: seq<V1Beta2.SubnetSpec>) {
    forall i, j | 0 <= i < |s| && 0 <= j < |s| && s[i].id == s[j].id :: SameForgotten(s[i], s[j])
  }

  /** Overlaying touches the three fields alone, and depends on the ID and the three fields alone. */
  lemma {:induction false} OverlayLocal(restored: seq<V1Beta2.SubnetSpec>, a: V1Beta2.SubnetSpec, b: V1Beta2.SubnetSpec)
    requires a.id == b.id && SameForgotten(a, b)
    ensures Bare(OverlayAll(restored, a)) == Bare(a)
    ensures SameForgotten(OverlayAll(restored, a), OverlayAll(restored, b))
    ensures OverlayAll(restored, b).id == b.id
  {
    if restored != [] {
      OverlayLocal(restored[..|restored| - 1], a, b);
    }
  }

  /** Part way through the saved subnets, a field is either still empty or right, and right once its own subnet is past. */
  lemma {:induction false} OverlayProgress(s: seq<V1Beta2.SubnetSpec>, n: nat, i: nat)
    requires SubnetsAgree(s) && n <= |s| && i < |s|
    ensures var x := OverlayAll(s[..n], Bare(s[i]));
            && Bare(x) == Bare(s[i])
            && (x.resourceID == s[i].resourceID || (x.resourceID == Zero && n <= i))
            && (x.parentZoneName == s[i].parentZoneName || (x.parentZoneName == Zero && n <= i))
            && (x.zoneType == s[i].zoneType || (x.zoneType == Zero && n <= i))
  {
    if n > 0 {
      OverlayProgress(s, n - 1, i);
      assert s[..n][..n - 1] == s[..n - 1];
    }
  }

  /** The nested loop restores every subnet exactly when subnets with the same ID agree. */
  lemma SubnetsRestoredIff(s: seq<V1Beta2.SubnetSpec>)
    ensures (forall i | 0 <= i < |s| :: OverlayAll(s, Bare(s[i])) == s[i]) <==> SubnetsAgree(s)
  {
    assert s[..|s|] == s;
    if SubnetsAgree(s) {
      forall i | 0 <= i < |s|
        ensures OverlayAll(s, Bare(s[i])) == s[i]
      {
        OverlayProgress(s, |s|, i);
      }
    } else if forall i | 0 <= i < |s| :: OverlayAll(s, Bare(s[i])) == s[i] {
      var i, j :| 0 <= i < |s| && 0 <= j < |s| && s[i].id == s[j].id && !SameForgotten(s[i], s[j]);
      OverlayLocal(s, Bare(s[i]), Bare(s[j]));
      assert false;
    }
  }

  // ---------------------------------------------------------------------------------------------
  // Security groups
  // ---------------------------------------------------------------------------------------------

  /** Saved groups are written over the converted ones, role by role in any order; nil if that writes to a nil map. */
  method RestoreSecurityGroups(restored: Option<map<Value, V1Beta2.SecurityGroup>>, dst: Option<map<Value, V1Beta2.SecurityGroup>>)
    returns (r: Option<Option<map<Value, V1Beta2.SecurityGroup>>>)
    ensures r.None? <==> dst.None? && restored.Some? && restored.value != map[]
    ensures r.Some? ==> r.value == MergedGroups(restored, dst)
  {
    if restored.None? {
      return Some(dst);
    }
    var groups := if dst.None? then map[] else dst.value;
    var pending := restored.value.Keys;
    while pending != {}
      invariant pending <= restored.value.Keys && (dst.None? ==> pending == restored.value.Keys)
      invariant groups == (if dst.None? then map[] else dst.value) + map role | role in restored.value.Keys - pending :: restored.value[role]
    {
      var role :| role in pending;
      if dst.None? {
        return None;
      }
      groups := groups[role := restored.value[role]];
      pending := pending - {role};
    }
    assert (map role | role in restored.value.Keys - {} :: restored.value[role]) == restored.value;
    return Some(if dst.None? then None else Some(groups));
  }

  // ---------------------------------------------------------------------------------------------
  // AWSCluster
  // ---------------------------------------------------------------------------------------------

  datatype Outcome = Converted(hub: V1Beta2.AWSCluster) | Panics

  function ClusterFromHub(src: V1Beta2.AWSCluster): V1Beta1.AWSCluster {
    V1Beta1.AWSCluster(DownAWSClusterSpec(src.spec), DownAWSClusterStatus(src.status), Some(src))
  }

  /** The saved copy has something to restore inside a structure that the spoke no longer has. */
  predicate Dangling(src: V1Beta1.AWSCluster) {
    && src.saved.Some?
    && var restored := src.saved.value;
       || (restored.status.bastion.Some? && src.status.bastion.None?)
       || (restored.status.network.securityGroups.Some? && restored.status.network.securityGroups.value != map[]
           && src.status.network.securityGroups.None?)
       || (HasIPv6Pool(restored.spec.networkSpec.vpc) && src.spec.networkSpec.vpc.ipv6.None?)
  }

  predicate SubnetListAgrees(s: Option<seq<V1Beta2.SubnetSpec>>) {
    s.Some? ==> SubnetsAgree(s.value)
  }

  method RestoreSubnetList(restored: Option<seq<V1Beta2.SubnetSpec>>, dst: Option<seq<V1Beta2.SubnetSpec>>)
    returns (r: Option<seq<V1Beta2.SubnetSpec>>)
    ensures DownSubnetSpecs(r) == DownSubnetSpecs(dst)
    ensures dst == UpSubnetSpecs(DownSubnetSpecs(restored)) ==> (r == restored <==> SubnetListAgrees(restored))
  {
    if restored.None? || dst.None? {
      return dst;
    }
    var subnets := new V1Beta2.SubnetSpec[|dst.value|](i requires 0 <= i < |dst.value| => dst.value[i]);
    RestoreSubnets(restored.value, subnets);
    SubnetEditsSurvive(restored.value, dst.value, subnets[..]);
    if dst == UpSubnetSpecs(DownSubnetSpecs(restored)) {
      SubnetsRestored(restored.value, dst.value, subnets[..]);
    }
    return Some(subnets[..]);
  }

  lemma {:induction false} SubnetEditsSurvive(restored: seq<V1Beta2.SubnetSpec>, dst: seq<V1Beta2.SubnetSpec>, r: seq<V1Beta2.SubnetSpec>)
    requires |r| == |dst| && forall i | 0 <= i < |r| :: r[i] == OverlayAll(restored, dst[i])
    ensures DownSubnetSpecs(Some(r)) == DownSubnetSpecs(Some(dst))
  {
    forall i | 0 <= i < |dst|
      ensures DownSubnetSpec(r[i]) == DownSubnetSpec(dst[i])
    {
      OverlayLocal(restored, dst[i], dst[i]);
      BareSeen(r[i], dst[i]);
    }
    assert DownSubnetSpecs(Some(r)).value == DownSubnetSpecs(Some(dst)).value;
  }

  lemma {:induction false} SubnetsRestored(restored: seq<V1Beta2.SubnetSpec>, dst: seq<V1Beta2.SubnetSpec>, r: seq<V1Beta2.SubnetSpec>)
    requires |r| == |dst| && forall i | 0 <= i < |r| :: r[i] == OverlayAll(restored, dst[i])
    requires Some(dst) == UpSubnetSpecs(DownSubnetSpecs(Some(restored)))
    ensures r == restored <==> SubnetsAgree(restored)
  {
    forall i | 0 <= i < |dst|
      ensures dst[i] == Bare(restored[i])
    {
      assert dst[i] == UpSubnetSpec(DownSubnetSpec(restored[i]));
    }
    SubnetsRestoredIff(restored);
    if SubnetsAgree(restored) {
      assert r == restored;
    } else {
      var i :| 0 <= i < |dst| && OverlayAll(restored, Bare(restored[i])) != restored[i];
      assert r[i] != restored[i];
    }
  }

  lemma BareSeen(a: V1Beta2.SubnetSpec, b: V1Beta2.SubnetSpec)
    requires Bare(a) == Bare(b)
    ensures DownSubnetSpec(a) == DownSubnetSpec(b)
  {
    assert DownSubnetSpec(a) == DownSubnetSpec(Bare(a)) && DownSubnetSpec(b) == DownSubnetSpec(Bare(b));
  }

  /** A VPC is restored exactly, and a v1beta1 client's edits to it stay. */
  lemma VPCRestored(restored: V1Beta2.VPCSpec, dst: V1Beta2.VPCSpec)
    requires HasIPv6Pool(restored) ==> dst.ipv6.Some?
    ensures var r := RestoreVPC(restored, RestorePools(restored, RestorePools(restored, dst)));
            && DownVPCSpec(r) == DownVPCSpec(dst)
            && (dst == UpVPCSpec(DownVPCSpec(restored)) ==> r == restored)
  {}

  method RestoreNetworkSpec(restored: V1Beta2.NetworkSpec, src: V1Beta2.NetworkSpec) returns (dst: V1Beta2.NetworkSpec)
    requires HasIPv6Pool(restored.vpc) ==> src.vpc.ipv6.Some?
    ensures DownNetworkSpec(dst) == DownNetworkSpec(src)
    ensures src == UpNetworkSpec(DownNetworkSpec(restored)) ==> (dst == restored <==> SubnetListAgrees(restored.subnets))
  {
    VPCRestored(restored.vpc, src.vpc);
    dst := src;
    dst := dst.(vpc := RestorePools(restored.vpc, dst.vpc));
    dst := dst.(additionalControlPlaneIngressRules := restored.additionalControlPlaneIngressRules);
    dst := dst.(additionalNodeIngressRules := restored.additionalNodeIngressRules);
    dst := dst.(nodePortIngressRuleCidrBlocks := restored.nodePortIngressRuleCidrBlocks);
    dst := dst.(vpc := RestorePools(restored.vpc, dst.vpc));
    dst := dst.(vpc := RestoreVPC(restored.vpc, dst.vpc));
    var subnets := RestoreSubnetList(restored.subnets, dst.subnets);
    dst := dst.(subnets := subnets);
  }

  /** What a v1beta1 client sees of the spec afterwards: its edits, but for the load balancer and the bucket. */
  function SurvivingSpec(src: V1Beta1.AWSClusterSpec, restored: V1Beta2.AWSClusterSpec): V1Beta1.AWSClusterSpec {
    var saved := DownAWSClusterSpec(restored);
    src.(controlPlaneLoadBalancer := if saved.controlPlaneLoadBalancer.Some? then saved.controlPlaneLoadBalancer else src.controlPlaneLoadBalancer,
         s3Bucket := saved.s3Bucket)
  }

  /** The spec with everything v1beta1 cannot express taken from the saved copy. */
  function Overlaid(restored: V1Beta2.AWSClusterSpec, src: V1Beta2.AWSClusterSpec, network: V1Beta2.NetworkSpec): V1Beta2.AWSClusterSpec {
    src.(controlPlaneLoadBalancer := RestoreLoadBalancerSpec(restored.controlPlaneLoadBalancer, src.controlPlaneLoadBalancer),
         secondaryControlPlaneLoadBalancer :=
           RestoreLoadBalancerSpec(restored.secondaryControlPlaneLoadBalancer, src.secondaryControlPlaneLoadBalancer),
         s3Bucket := restored.s3Bucket, partition := restored.partition, networkSpec := network)
  }

  lemma OverlaidSeen(restored: V1Beta2.AWSClusterSpec, src: V1Beta2.AWSClusterSpec, network: V1Beta2.NetworkSpec)
    requires DownNetworkSpec(network) == DownNetworkSpec(src.networkSpec)
    ensures DownAWSClusterSpec(Overlaid(restored, src, network)) == SurvivingSpec(DownAWSClusterSpec(src), restored)
  {}

  lemma OverlaidBack(restored: V1Beta2.AWSClusterSpec, src: V1Beta2.AWSClusterSpec, network: V1Beta2.NetworkSpec)
    ensures src == UpAWSClusterSpec(DownAWSClusterSpec(restored)) ==>
              (Overlaid(restored, src, network) == restored <==> network == restored.networkSpec)
  {}

  /** The spec part of ConvertTo, once the converted VPC is known to have what the saved one's pools need. */
  method RestoreSpec(restored: V1Beta2.AWSClusterSpec, src: V1Beta2.AWSClusterSpec) returns (dst: V1Beta2.AWSClusterSpec)
    requires HasIPv6Pool(restored.networkSpec.vpc) ==> src.networkSpec.vpc.ipv6.Some?
    ensures DownAWSClusterSpec(dst) == SurvivingSpec(DownAWSClusterSpec(src), restored)
    ensures src == UpAWSClusterSpec(DownAWSClusterSpec(restored)) ==>
              (dst == restored <==> SubnetListAgrees(restored.networkSpec.subnets))
  {
    dst := src;
    dst := dst.(controlPlaneLoadBalancer := RestoreLoadBalancerSpec(restored.controlPlaneLoadBalancer, dst.controlPlaneLoadBalancer));
    dst := dst.(secondaryControlPlaneLoadBalancer := RestoreLoadBalancerSpec(restored.secondaryControlPlaneLoadBalancer, dst.secondaryControlPlaneLoadBalancer));
    dst := dst.(s3Bucket := restored.s3Bucket);
    dst := dst.(partition := restored.partition);
    var network := RestoreNetworkSpec(restored.networkSpec, dst.networkSpec);
    dst := dst.(networkSpec := network);
    OverlaidSeen(restored, src, network);
    OverlaidBack(restored, src, network);
  }

  /** What a v1beta1 client sees of the status afterwards. */
  function SurvivingStatus(src: V1Beta1.AWSClusterStatus, restored: V1Beta2.AWSClusterStatus): V1Beta1.AWSClusterStatus {
    var saved := DownAWSClusterStatus(restored).network;
    var groups := src.network.securityGroups;
    src.(network := V1Beta1.NetworkStatus(
         securityGroups := if groups.None? || saved.securityGroups.None? then groups else Some(groups.value + saved.securityGroups.value),
         apiServerELB := saved.apiServerELB))
  }

  lemma GroupsMerged(src: map<Value, V1Beta1.SecurityGroup>, restored: map<Value, V1Beta2.SecurityGroup>)
    ensures DownSecurityGroups(Some(UpSecurityGroups(Some(src)).value + restored)).value == src + DownSecurityGroups(Some(restored)).value
  {
    forall role | role in src
      ensures DownSecurityGroup(UpSecurityGroup(src[role])) == src[role]
    {
      RulesRoundTrip(src[role].ingressRules);
    }
  }

  lemma RulesRoundTrip(spoke: Option<seq<V1Beta1.IngressRule>>)
    ensures DownIngressRules(UpIngressRules(spoke)) == spoke
  {
    if spoke.Some? {
      assert DownIngressRules(UpIngressRules(spoke)).value == spoke.value;
    }
  }

  /** The converted status with everything v1beta1 cannot express taken from the saved copy. */
  function OverlaidStatus(restored: V1Beta2.AWSClusterStatus, spoke: V1Beta1.AWSClusterStatus,
                          groups: Option<map<Value, V1Beta2.SecurityGroup>>): V1Beta2.AWSClusterStatus
    requires restored.bastion.Some? ==> spoke.bastion.Some?
  {
    var dst := UpAWSClusterStatus(spoke);
    dst.(bastion := if restored.bastion.Some? then Some(RestoreBastion(restored.bastion.value, dst.bastion.value)) else dst.bastion,
         network := dst.network.(
           apiServerELB := RestoreLoadBalancerStatus(restored.network.apiServerELB, dst.network.apiServerELB),
           secondaryAPIServerELB := RestoreLoadBalancerStatus(restored.network.secondaryAPIServerELB, dst.network.secondaryAPIServerELB),
           securityGroups := groups, natGatewaysIPs := restored.network.natGatewaysIPs))
  }

  /** The groups the loop over the saved ones leaves. */
  function MergedGroups(restored: Option<map<Value, V1Beta2.SecurityGroup>>, dst: Option<map<Value, V1Beta2.SecurityGroup>>): Option<map<Value, V1Beta2.SecurityGroup>> {
    if restored.None? || dst.None? then dst else Some(dst.value + restored.value)
  }

  lemma OverlaidStatusSeen(restored: V1Beta2.AWSClusterStatus, spoke: V1Beta1.AWSClusterStatus, groups: Option<map<Value, V1Beta2.SecurityGroup>>)
    requires restored.bastion.Some? ==> spoke.bastion.Some?
    requires groups == MergedGroups(restored.network.securityGroups, UpSecurityGroups(spoke.network.securityGroups))
    ensures DownAWSClusterStatus(OverlaidStatus(restored, spoke, groups)) == SurvivingStatus(spoke, restored)
  {
    GroupsSeen(restored.network.securityGroups, spoke.network.securityGroups);
  }

  lemma OverlaidStatusBack(restored: V1Beta2.AWSClusterStatus, spoke: V1Beta1.AWSClusterStatus, groups: Option<map<Value, V1Beta2.SecurityGroup>>)
    requires restored.bastion.Some? ==> spoke.bastion.Some?
    requires groups == MergedGroups(restored.network.securityGroups, UpSecurityGroups(spoke.network.securityGroups))
    ensures spoke == DownAWSClusterStatus(restored) ==> OverlaidStatus(restored, spoke, groups) == restored
  {
    GroupsSeen(restored.network.securityGroups, spoke.network.securityGroups);
  }

  /** The status part of ConvertTo. */
  method RestoreStatus(restored: V1Beta2.AWSClusterStatus, spoke: V1Beta1.AWSClusterStatus) returns (r: Option<V1Beta2.AWSClusterStatus>)
    ensures r.None? <==>
            || (restored.bastion.Some? && spoke.bastion.None?)
            || (restored.network.securityGroups.Some? && restored.network.securityGroups.value != map[] && spoke.network.securityGroups.None?)
    ensures r.Some? ==> DownAWSClusterStatus(r.value) == SurvivingStatus(spoke, restored)
    ensures r.Some? && spoke == DownAWSClusterStatus(restored) ==> r.value == restored
  {
    var dst := UpAWSClusterStatus(spoke);
    var network := dst.network;
    network := network.(apiServerELB := RestoreLoadBalancerStatus(restored.network.apiServerELB, network.apiServerELB));
    network := network.(secondaryAPIServerELB := RestoreLoadBalancerStatus(restored.network.secondaryAPIServerELB, network.secondaryAPIServerELB));
    if restored.bastion.Some? {
      if dst.bastion.None? {
        return None;
      }
      dst := dst.(bastion := Some(RestoreBastion(restored.bastion.value, dst.bastion.value)));
    }
    var groups := RestoreSecurityGroups(restored.network.securityGroups, network.securityGroups);
    if groups.None? {
      return None;
    }
    network := network.(securityGroups := groups.value);
    network := network.(natGatewaysIPs := restored.network.natGatewaysIPs);
    dst := dst.(network := network);
    OverlaidStatusSeen(restored, spoke, groups.value);
    OverlaidStatusBack(restored, spoke, groups.value);
    return Some(dst);
  }

  lemma GroupsSeen(restored: Option<map<Value, V1Beta2.SecurityGroup>>, spoke: Option<map<Value, V1Beta1.SecurityGroup>>)
    ensures spoke.Some? ==> DownSecurityGroups(UpSecurityGroups(spoke)) == spoke
    ensures spoke.Some? && restored.Some? ==>
              DownSecurityGroups(Some(UpSecurityGroups(spoke).value + restored.value)) == Some(spoke.value + DownSecurityGroups(restored).value)
    ensures restored.Some? ==> UpSecurityGroups(DownSecurityGroups(restored)).value + restored.value == restored.value
  {
    if spoke.Some? {
      GroupsMerged(spoke.value, map[]);
      assert UpSecurityGroups(spoke).value + map[] == UpSecurityGroups(spoke).value;
      assert DownSecurityGroups(Some(map[])).value == map[];
      assert DownSecurityGroups(UpSecurityGroups(spoke)).value == spoke.value + map[] == spoke.value;
      if restored.Some? {
        GroupsMerged(spoke.value, restored.value);
      }
    }
  }

  /** What the saved copy adds to a converted cluster. */
  method RestoreCluster(restored: V1Beta2.AWSCluster, spec: V1Beta1.AWSClusterSpec, status: V1Beta1.AWSClusterStatus) returns (r: Outcome)
    ensures r.Panics? <==> Dangling(V1Beta1.AWSCluster(spec, status, Some(restored)))
    ensures spec == DownAWSClusterSpec(restored.spec) && status == DownAWSClusterStatus(restored.status) ==>
              r.Converted? && (r.hub == restored <==> SubnetListAgrees(restored.spec.networkSpec.subnets))
    ensures r.Converted? ==>
              && DownAWSClusterSpec(r.hub.spec) == SurvivingSpec(spec, restored.spec)
              && DownAWSClusterStatus(r.hub.status) == SurvivingStatus(status, restored.status)
  {
    PlainRoundTrip(spec, status);
    var restoredStatus := RestoreStatus(restored.status, status);
    if restoredStatus.None? {
      return Panics;
    }
    if HasIPv6Pool(restored.spec.networkSpec.vpc) && spec.networkSpec.vpc.ipv6.None? {
      return Panics;
    }
    var restoredSpec := RestoreSpec(restored.spec, UpAWSClusterSpec(spec));
    return Converted(V1Beta2.AWSCluster(restoredSpec, restoredStatus.value));
  }

  /**
   ConvertTo.  It fails with a nil dereference or a write to a nil map exactly when the saved copy dangles, which
   the result of ConvertFrom never does; it undoes ConvertFrom exactly when subnets with one ID agree.
   */
  method ClusterToHub(src: V1Beta1.AWSCluster) returns (r: Outcome)
    ensures r.Panics? <==> Dangling(src)
    ensures forall hub :: src == ClusterFromHub(hub) ==> r.Converted? && (r.hub == hub <==> SubnetListAgrees(hub.spec.networkSpec.subnets))
    ensures r.Converted? && src.saved.None? ==> ClusterFromHub(r.hub).(saved := None) == src
    ensures r.Converted? && src.saved.Some? ==>
              && DownAWSClusterSpec(r.hub.spec) == SurvivingSpec(src.spec, src.saved.value.spec)
              && DownAWSClusterStatus(r.hub.status) == SurvivingStatus(src.status, src.saved.value.status)
  {
    PlainRoundTrip(src.spec, src.status);
    if src.saved.None? {
      return Converted(V1Beta2.AWSCluster(UpAWSClusterSpec(src.spec), UpAWSClusterStatus(src.status)));
    }
    r := RestoreCluster(src.saved.value, src.spec, src.status);
  }

  /** Without a saved copy, a v1beta1 cluster goes to the hub and back unchanged. */
  lemma PlainRoundTrip(spec: V1Beta1.AWSClusterSpec, status: V1Beta1.AWSClusterStatus)
    ensures DownAWSClusterSpec(UpAWSClusterSpec(spec)) == spec
    ensures DownAWSClusterStatus(UpAWSClusterStatus(status)) == status
  {
    PlainNetwork(spec.networkSpec);
    PlainStatus(status);
  }

  lemma PlainNetwork(spec: V1Beta1.NetworkSpec)
    ensures DownNetworkSpec(UpNetworkSpec(spec)) == spec
  {
    var subnets := spec.subnets;
    if subnets.Some? {
      assert DownSubnetSpecs(UpSubnetSpecs(subnets)).value == subnets.value;
    }
    assert DownSubnetSpecs(UpSubnetSpecs(subnets)) == subnets;
    assert DownVPCSpec(UpVPCSpec(spec.vpc)) == spec.vpc;
  }

  lemma PlainStatus(status: V1Beta1.AWSClusterStatus)
    ensures DownAWSClusterStatus(UpAWSClusterStatus(status)) == status
  {
    GroupsSeen(None, status.network.securityGroups);
  }
}
