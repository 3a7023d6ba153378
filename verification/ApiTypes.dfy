/**
 The two API versions.  A v1beta2 object is the hub; a v1beta1 object is a spoke.

 api/v1beta1 and api/v1beta2: the types of AWSMachine, AWSMachineTemplate and AWSCluster.
 */
module ApiValues {
  /** A field that both versions hold alike, or that only one of them has: it is copied as a whole or not at all. */
  type Value = string

  /** The zero value of a field: nil, empty, false or 0. */
  const Zero: Value := ""
}

/** The hub. */
module V1Beta2 {
  import opened Basics
  import opened ApiValues

  datatype CloudInit = CloudInit(
    insecureSkipSecretsManager: Value, secretCount: Value, secretPrefix: Value, secureSecretsBackend: Value
  )

  datatype Ignition = Ignition(
    version: Value, storageType: Value, proxy: Value, tls: Value
  )

  datatype AWSResourceReference = AWSResourceReference(
    id: Value, filters: Value
  )

  datatype ElasticIPPool = ElasticIPPool(
    publicIpv4Pool: Value, publicIpv4PoolFallBackOrder: Value
  )

  datatype AWSMachineSpec = AWSMachineSpec(
    providerID: Value, instanceID: Value, instanceMetadataOptions: Value, ami: Value, imageLookupFormat: Value,
    imageLookupOrg: Value, imageLookupBaseOS: Value, instanceType: Value, cpuOptions: Value, additionalTags: Value,
    iamInstanceProfile: Value, publicIP: Value, elasticIPPool: Option<ElasticIPPool>,
    additionalSecurityGroups: Option<seq<AWSResourceReference>>, subnet: Option<AWSResourceReference>,
    securityGroupOverrides: Value, sshKeyName: Value, rootVolume: Value, nonRootVolumes: Value,
    networkInterfaces: Value, networkInterfaceType: Value, assignPrimaryIPv6: Value, uncompressedUserData: Value,
    cloudInit: CloudInit, ignition: Option<Ignition>, spotMarketOptions: Value, placementGroupName: Value,
    placementGroupPartition: Value, tenancy: Value, privateDNSName: Value, capacityReservationID: Value,
    marketType: Value, hostID: Value, hostAffinity: Value, dynamicHostAllocation: Value,
    capacityReservationPreference: Value
  )

  datatype AWSMachineStatus = AWSMachineStatus(
    ready: Value, interruptible: Value, addresses: Value, instanceState: Value, failureReason: Value,
    failureMessage: Value, conditions: Value, dedicatedHost: Value
  )

  datatype AWSMachineTemplateStatus = AWSMachineTemplateStatus(
    capacity: Value, nodeInfo: Value, conditions: Value
  )

  datatype IngressRule = IngressRule(
    description: Value, protocol: Value, fromPort: Value, toPort: Value, cidrBlocks: Value, ipv6CidrBlocks: Value,
    sourceSecurityGroupIDs: Value, sourceSecurityGroupRoles: Value, natGatewaysIPsSource: Value
  )

  datatype SecurityGroup = SecurityGroup(
    id: Value, name: Value, ingressRules: Option<seq<IngressRule>>, tags: Value
  )

  datatype IPAMPool = IPAMPool(
    id: Value, name: Value, netmaskLength: Value
  )

  datatype IPv6 = IPv6(
    cidrBlock: Value, poolID: Value, egressOnlyInternetGatewayID: Value, ipamPool: Option<IPAMPool>
  )

  datatype VPCSpec = VPCSpec(
    id: Value, cidrBlock: Value, secondaryCidrBlocks: Value, ipamPool: Option<IPAMPool>, ipv6: Option<IPv6>,
    internetGatewayID: Value, carrierGatewayID: Value, tags: Value, availabilityZoneUsageLimit: Value,
    availabilityZoneSelection: Value, emptyRoutesDefaultVPCSecurityGroup: Value,
    privateDNSHostnameTypeOnLaunch: Value, elasticIPPool: Option<ElasticIPPool>, subnetSchema: Value
  )

  datatype SubnetSpec = SubnetSpec(
    id: Value, resourceID: Value, cidrBlock: Value, ipv6CidrBlock: Value, availabilityZone: Value, isPublic: Value,
    isIPv6: Value, routeTableID: Value, natGatewayID: Value, tags: Value, zoneType: Value, parentZoneName: Value
  )

  datatype NetworkSpec = NetworkSpec(
    vpc: VPCSpec, subnets: Option<seq<SubnetSpec>>, cni: Value, securityGroupOverrides: Value,
    additionalControlPlaneIngressRules: Value, additionalNodeIngressRules: Value, nodePortIngressRuleCidrBlocks: Value
  )

  datatype AWSLoadBalancerSpec = AWSLoadBalancerSpec(
    name: Value, scheme: Value, crossZoneLoadBalancing: Value, subnets: Value, healthCheckProtocol: Value,
    healthCheck: Value, additionalSecurityGroups: Value, additionalListeners: Value, ingressRules: Value,
    loadBalancerType: Value, disableHostsRewrite: Value, preserveClientIP: Value, targetGroupIPType: Value
  )

  datatype S3Bucket = S3Bucket(
    controlPlaneIAMInstanceProfile: Value, nodesIAMInstanceProfiles: Value, presignedURLDuration: Value, name: Value,
    bestEffortDeleteObjects: Value
  )

  datatype AWSClusterSpec = AWSClusterSpec(
    networkSpec: NetworkSpec, region: Value, partition: Value, sshKeyName: Value, controlPlaneEndpoint: Value,
    additionalTags: Value, controlPlaneLoadBalancer: Option<AWSLoadBalancerSpec>,
    secondaryControlPlaneLoadBalancer: Option<AWSLoadBalancerSpec>, imageLookupFormat: Value, imageLookupOrg: Value,
    imageLookupBaseOS: Value, bastion: Value, identityRef: Value, s3Bucket: Option<S3Bucket>
  )

  datatype LoadBalancer = LoadBalancer(
    arn: Value, name: Value, dnsName: Value, scheme: Value, availabilityZones: Value, subnetIDs: Value,
    securityGroupIDs: Value, classicELBListeners: Value, healthCheck: Value, classicElbAttributes: Value, tags: Value,
    elbListeners: Value, elbAttributes: Value, loadBalancerType: Value, loadBalancerIPAddressType: Value
  )

  datatype NetworkStatus = NetworkStatus(
    securityGroups: Option<map<Value, SecurityGroup>>, apiServerELB: LoadBalancer,
    secondaryAPIServerELB: LoadBalancer, natGatewaysIPs: Value
  )

  datatype Instance = Instance(
    id: Value, state: Value, instanceType: Value, subnetID: Value, imageID: Value, sshKeyName: Value,
    securityGroupIDs: Value, userData: Value, iamProfile: Value, addresses: Value, privateIP: Value,
    ipv6Address: Value, publicIP: Value, enaSupport: Value, ebsOptimized: Value, rootVolume: Value,
    nonRootVolumes: Value, networkInterfaces: Value, networkInterfaceType: Value, assignPrimaryIPv6: Value,
    tags: Value, availabilityZone: Value, spotMarketOptions: Value, placementGroupName: Value,
    placementGroupPartition: Value, tenancy: Value, volumeIDs: Value, instanceMetadataOptions: Value,
    privateDNSName: Value, publicIPOnLaunch: Value, capacityReservationID: Value, marketType: Value,
    hostAffinity: Value, hostID: Value, dynamicHostAllocation: Value, capacityReservationPreference: Value,
    cpuOptions: Value
  )

  datatype AWSClusterStatus = AWSClusterStatus(
    ready: Value, network: NetworkStatus, failureDomains: Value, bastion: Option<Instance>, conditions: Value
  )

  datatype AWSMachine = AWSMachine(spec: AWSMachineSpec, status: AWSMachineStatus)

  datatype AWSMachineTemplate = AWSMachineTemplate(objectMeta: Value, spec: AWSMachineSpec, status: AWSMachineTemplateStatus)

  datatype AWSCluster = AWSCluster(spec: AWSClusterSpec, status: AWSClusterStatus)

  function ZeroLoadBalancer(): LoadBalancer {
    LoadBalancer(Zero, Zero, Zero, Zero, Zero, Zero, Zero, Zero, Zero, Zero, Zero, Zero, Zero, Zero, Zero)
  }

  function ZeroLoadBalancerSpec(): AWSLoadBalancerSpec {
    AWSLoadBalancerSpec(Zero, Zero, Zero, Zero, Zero, Zero, Zero, Zero, Zero, Zero, Zero, Zero, Zero)
  }
}

/** The spoke.  saved is the copy of the hub that conversion from the hub leaves in an annotation. */
module V1Beta1 {
  import opened Basics
  import opened ApiValues
  import V1Beta2

  datatype CloudInit = CloudInit(
    insecureSkipSecretsManager: Value, secretCount: Value, secretPrefix: Value, secureSecretsBackend: Value
  )

  datatype Ignition = Ignition(
    version: Value
  )

  datatype AWSResourceReference = AWSResourceReference(
    id: Value, arn: Value, filters: Value
  )

  datatype AWSMachineSpec = AWSMachineSpec(
    providerID: Value, instanceID: Value, ami: Value, imageLookupFormat: Value, imageLookupOrg: Value,
    imageLookupBaseOS: Value, instanceType: Value, additionalTags: Value, iamInstanceProfile: Value, publicIP: Value,
    additionalSecurityGroups: Option<seq<AWSResourceReference>>, failureDomain: Value,
    subnet: Option<AWSResourceReference>, sshKeyName: Value, rootVolume: Value, nonRootVolumes: Value,
    networkInterfaces: Value, uncompressedUserData: Value, cloudInit: CloudInit, ignition: Option<Ignition>,
    spotMarketOptions: Value, tenancy: Value
  )

  datatype AWSMachineStatus = AWSMachineStatus(
    ready: Value, interruptible: Value, addresses: Value, instanceState: Value, failureReason: Value,
    failureMessage: Value, conditions: Value
  )

  datatype AWSMachineTemplateStatus = AWSMachineTemplateStatus(
    capacity: Value
  )

  datatype IngressRule = IngressRule(
    description: Value, protocol: Value, fromPort: Value, toPort: Value, cidrBlocks: Value, ipv6CidrBlocks: Value,
    sourceSecurityGroupIDs: Value
  )

  datatype SecurityGroup = SecurityGroup(
    id: Value, name: Value, ingressRules: Option<seq<IngressRule>>, tags: Value
  )

  datatype IPv6 = IPv6(
    cidrBlock: Value, poolID: Value, egressOnlyInternetGatewayID: Value
  )

  datatype VPCSpec = VPCSpec(
    id: Value, cidrBlock: Value, ipv6: Option<IPv6>, internetGatewayID: Value, tags: Value,
    availabilityZoneUsageLimit: Value, availabilityZoneSelection: Value
  )

  datatype SubnetSpec = SubnetSpec(
    id: Value, cidrBlock: Value, ipv6CidrBlock: Value, availabilityZone: Value, isPublic: Value, isIPv6: Value,
    routeTableID: Value, natGatewayID: Value, tags: Value
  )

  datatype NetworkSpec = NetworkSpec(
    vpc: VPCSpec, subnets: Option<seq<SubnetSpec>>, cni: Value, securityGroupOverrides: Value
  )

  datatype AWSLoadBalancerSpec = AWSLoadBalancerSpec(
    name: Value, scheme: Value, crossZoneLoadBalancing: Value, subnets: Value, healthCheckProtocol: Value,
    additionalSecurityGroups: Value
  )

  datatype S3Bucket = S3Bucket(
    controlPlaneIAMInstanceProfile: Value, nodesIAMInstanceProfiles: Value, name: Value
  )

  datatype AWSClusterSpec = AWSClusterSpec(
    networkSpec: NetworkSpec, region: Value, sshKeyName: Value, controlPlaneEndpoint: Value, additionalTags: Value,
    controlPlaneLoadBalancer: Option<AWSLoadBalancerSpec>, imageLookupFormat: Value, imageLookupOrg: Value,
    imageLookupBaseOS: Value, bastion: Value, identityRef: Value, s3Bucket: Option<S3Bucket>
  )

  datatype ClassicELB = ClassicELB(
    name: Value, dnsName: Value, scheme: Value, availabilityZones: Value, subnetIDs: Value, securityGroupIDs: Value,
    listeners: Value, healthCheck: Value, attributes: Value, tags: Value
  )

  datatype NetworkStatus = NetworkStatus(
    securityGroups: Option<map<Value, SecurityGroup>>, apiServerELB: ClassicELB
  )

  datatype Instance = Instance(
    id: Value, state: Value, instanceType: Value, subnetID: Value, imageID: Value, sshKeyName: Value,
    securityGroupIDs: Value, userData: Value, iamProfile: Value, addresses: Value, privateIP: Value, publicIP: Value,
    enaSupport: Value, ebsOptimized: Value, rootVolume: Value, nonRootVolumes: Value, networkInterfaces: Value,
    tags: Value, availabilityZone: Value, spotMarketOptions: Value, tenancy: Value, volumeIDs: Value
  )

  datatype AWSClusterStatus = AWSClusterStatus(
    ready: Value, network: NetworkStatus, failureDomains: Value, bastion: Option<Instance>, conditions: Value
  )

  datatype AWSMachine = AWSMachine(spec: AWSMachineSpec, status: AWSMachineStatus, saved: Option<V1Beta2.AWSMachine>)

  datatype AWSMachineTemplate = AWSMachineTemplate(
    objectMeta: Value, spec: AWSMachineSpec, status: AWSMachineTemplateStatus, saved: Option<V1Beta2.AWSMachineTemplate>
  )

  datatype AWSCluster = AWSCluster(spec: AWSClusterSpec, status: AWSClusterStatus, saved: Option<V1Beta2.AWSCluster>)
}
