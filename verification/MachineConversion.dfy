/**
 Conversion of AWSMachine and AWSMachineTemplate between the two API versions.

 api/v1beta1/awsmachine_conversion.go and the generated functions it calls.
 */
module MachineConversion {
  import opened Basics
  import opened ApiValues
  import V1Beta1
  import V1Beta2

  // ---------------------------------------------------------------------------------------------
  // Field by field
  // ---------------------------------------------------------------------------------------------

  function DownCloudInit(x: V1Beta2.CloudInit): V1Beta1.CloudInit {
    V1Beta1.CloudInit(
      insecureSkipSecretsManager := x.insecureSkipSecretsManager, secretCount := x.secretCount,
      secretPrefix := x.secretPrefix, secureSecretsBackend := x.secureSecretsBackend)
  }

  function UpCloudInit(x: V1Beta1.CloudInit): V1Beta2.CloudInit {
    V1Beta2.CloudInit(
      insecureSkipSecretsManager := x.insecureSkipSecretsManager, secretCount := x.secretCount,
      secretPrefix := x.secretPrefix, secureSecretsBackend := x.secureSecretsBackend)
  }

  function DownIgnition(x: V1Beta2.Ignition): V1Beta1.Ignition {
    V1Beta1.Ignition(
      version := x.version)
  }

  function UpIgnition(x: V1Beta1.Ignition): V1Beta2.Ignition {
    V1Beta2.Ignition(
      version := x.version, storageType := Zero, proxy := Zero, tls := Zero)
  }

  function DownAWSResourceReference(x: V1Beta2.AWSResourceReference): V1Beta1.AWSResourceReference {
    V1Beta1.AWSResourceReference(
      id := x.id, arn := Zero, filters := x.filters)
  }

  function UpAWSResourceReference(x: V1Beta1.AWSResourceReference): V1Beta2.AWSResourceReference {
    V1Beta2.AWSResourceReference(
      id := x.id, filters := x.filters)
  }

  function DownAWSMachineStatus(x: V1Beta2.AWSMachineStatus): V1Beta1.AWSMachineStatus {
    V1Beta1.AWSMachineStatus(
      ready := x.ready, interruptible := x.interruptible, addresses := x.addresses, instanceState := x.instanceState,
      failureReason := x.failureReason, failureMessage := x.failureMessage, conditions := x.conditions)
  }

  function UpAWSMachineStatus(x: V1Beta1.AWSMachineStatus): V1Beta2.AWSMachineStatus {
    V1Beta2.AWSMachineStatus(
      ready := x.ready, interruptible := x.interruptible, addresses := x.addresses, instanceState := x.instanceState,
      failureReason := x.failureReason, failureMessage := x.failureMessage, conditions := x.conditions,
      dedicatedHost := Zero)
  }

  function DownAWSMachineTemplateStatus(x: V1Beta2.AWSMachineTemplateStatus): V1Beta1.AWSMachineTemplateStatus {
    V1Beta1.AWSMachineTemplateStatus(
      capacity := x.capacity)
  }

  function UpAWSMachineTemplateStatus(x: V1Beta1.AWSMachineTemplateStatus): V1Beta2.AWSMachineTemplateStatus {
    V1Beta2.AWSMachineTemplateStatus(
      capacity := x.capacity, nodeInfo := Zero, conditions := Zero)
  }

  function DownAWSResourceReferences(x: Option<seq<V1Beta2.AWSResourceReference>>): (r: Option<seq<V1Beta1.AWSResourceReference>>)
    ensures r.None? <==> x.None?
    ensures x.Some? ==> |r.value| == |x.value| && forall k | 0 <= k < |x.value| :: r.value[k] == DownAWSResourceReference(x.value[k])
  {
    if x.None? then None else Some(seq(|x.value|, k requires 0 <= k < |x.value| => DownAWSResourceReference(x.value[k])))
  }

  function UpAWSResourceReferences(x: Option<seq<V1Beta1.AWSResourceReference>>): (r: Option<seq<V1Beta2.AWSResourceReference>>)
    ensures r.None? <==> x.None?
    ensures x.Some? ==> |r.value| == |x.value| && forall k | 0 <= k < |x.value| :: r.value[k] == UpAWSResourceReference(x.value[k])
  {
    if x.None? then None else Some(seq(|x.value|, k requires 0 <= k < |x.value| => UpAWSResourceReference(x.value[k])))
  }

  function DownAWSMachineSpec(x: V1Beta2.AWSMachineSpec): V1Beta1.AWSMachineSpec {
    V1Beta1.AWSMachineSpec(
      providerID := x.providerID, instanceID := x.instanceID, ami := x.ami, imageLookupFormat := x.imageLookupFormat,
      imageLookupOrg := x.imageLookupOrg, imageLookupBaseOS := x.imageLookupBaseOS, instanceType := x.instanceType,
      additionalTags := x.additionalTags, iamInstanceProfile := x.iamInstanceProfile, publicIP := x.publicIP,
      additionalSecurityGroups := DownAWSResourceReferences(x.additionalSecurityGroups), failureDomain := Zero,
      subnet := if x.subnet.None? then None else Some(DownAWSResourceReference(x.subnet.value)),
      sshKeyName := x.sshKeyName, rootVolume := x.rootVolume, nonRootVolumes := x.nonRootVolumes,
      networkInterfaces := x.networkInterfaces, uncompressedUserData := x.uncompressedUserData,
      cloudInit := DownCloudInit(x.cloudInit),
      ignition := if x.ignition.None? then None else Some(DownIgnition(x.ignition.value)),
      spotMarketOptions := x.spotMarketOptions, tenancy := x.tenancy)
  }

  function UpAWSMachineSpec(x: V1Beta1.AWSMachineSpec): V1Beta2.AWSMachineSpec {
    V1Beta2.AWSMachineSpec(
      providerID := x.providerID, instanceID := x.instanceID, instanceMetadataOptions := Zero, ami := x.ami,
      imageLookupFormat := x.imageLookupFormat, imageLookupOrg := x.imageLookupOrg,
      imageLookupBaseOS := x.imageLookupBaseOS, instanceType := x.instanceType, cpuOptions := Zero,
      additionalTags := x.additionalTags, iamInstanceProfile := x.iamInstanceProfile, publicIP := x.publicIP,
      elasticIPPool := None, additionalSecurityGroups := UpAWSResourceReferences(x.additionalSecurityGroups),
      subnet := if x.subnet.None? then None else Some(UpAWSResourceReference(x.subnet.value)),
      securityGroupOverrides := Zero, sshKeyName := x.sshKeyName, rootVolume := x.rootVolume,
      nonRootVolumes := x.nonRootVolumes, networkInterfaces := x.networkInterfaces, networkInterfaceType := Zero,
      assignPrimaryIPv6 := Zero, uncompressedUserData := x.uncompressedUserData,
      cloudInit := UpCloudInit(x.cloudInit),
      ignition := if x.ignition.None? then None else Some(UpIgnition(x.ignition.value)),
      spotMarketOptions := x.spotMarketOptions, placementGroupName := Zero, placementGroupPartition := Zero,
      tenancy := x.tenancy, privateDNSName := Zero, capacityReservationID := Zero, marketType := Zero, hostID := Zero,
      hostAffinity := Zero, dynamicHostAllocation := Zero, capacityReservationPreference := Zero)
  }

  // ---------------------------------------------------------------------------------------------
  // Restoring what the spoke cannot hold
  // ---------------------------------------------------------------------------------------------

  function RestoreElasticIPPool(restored: Option<V1Beta2.ElasticIPPool>, dst: Option<V1Beta2.ElasticIPPool>): Option<V1Beta2.ElasticIPPool> {
    if restored.None? then dst else
    var start := if dst.None? then V1Beta2.ElasticIPPool(Zero, Zero) else dst.value;
    Some(V1Beta2.ElasticIPPool(
           if restored.value.publicIpv4Pool != Zero then restored.value.publicIpv4Pool else start.publicIpv4Pool,
           if restored.value.publicIpv4PoolFallBackOrder != Zero then restored.value.publicIpv4PoolFallBackOrder
           else start.publicIpv4PoolFallBackOrder))
  }

  function RestoreMachineSpec(restored: V1Beta2.AWSMachineSpec, dst: V1Beta2.AWSMachineSpec): V1Beta2.AWSMachineSpec {
    dst.(
    ignition := restored.ignition,
    instanceMetadataOptions := restored.instanceMetadataOptions,
    placementGroupName := restored.placementGroupName,
    placementGroupPartition := restored.placementGroupPartition,
    privateDNSName := restored.privateDNSName,
    securityGroupOverrides := restored.securityGroupOverrides,
    capacityReservationID := restored.capacityReservationID,
    marketType := restored.marketType,
    hostID := restored.hostID,
    hostAffinity := restored.hostAffinity,
    capacityReservationPreference := restored.capacityReservationPreference,
    networkInterfaceType := restored.networkInterfaceType,
    assignPrimaryIPv6 := restored.assignPrimaryIPv6,
    cpuOptions := restored.cpuOptions,
    dynamicHostAllocation := if restored.dynamicHostAllocation != Zero then restored.dynamicHostAllocation else dst.dynamicHostAllocation,
    elasticIPPool := RestoreElasticIPPool(restored.elasticIPPool, dst.elasticIPPool)
    )
  }

  /** What a v1beta1 spec says that v1beta2 can hold: all but the failure domain and the ARNs of references. */
  function Kept(s: V1Beta1.AWSMachineSpec): V1Beta1.AWSMachineSpec {
    s.(failureDomain := Zero,
       additionalSecurityGroups := WithoutARNs(s.additionalSecurityGroups),
       subnet := if s.subnet.None? then None else Some(s.subnet.value.(arn := Zero)))
  }

  function WithoutARNs(x: Option<seq<V1Beta1.AWSResourceReference>>): (r: Option<seq<V1Beta1.AWSResourceReference>>)
    ensures r.None? <==> x.None?
    ensures x.Some? ==> |r.value| == |x.value| && forall k | 0 <= k < |x.value| :: r.value[k] == x.value[k].(arn := Zero)
  {
    if x.None? then None else Some(seq(|x.value|, k requires 0 <= k < |x.value| => x.value[k].(arn := Zero)))
  }

  /** Down and up again, and up and down again, for the lists. */
  lemma ReferencesRoundTrip(hub: Option<seq<V1Beta2.AWSResourceReference>>, spoke: Option<seq<V1Beta1.AWSResourceReference>>)
    ensures UpAWSResourceReferences(DownAWSResourceReferences(hub)) == hub
    ensures DownAWSResourceReferences(UpAWSResourceReferences(spoke)) == WithoutARNs(spoke)
  {
    if hub.Some? {
      assert UpAWSResourceReferences(DownAWSResourceReferences(hub)).value == hub.value;
    }
    if spoke.Some? {
      assert DownAWSResourceReferences(UpAWSResourceReferences(spoke)).value == WithoutARNs(spoke).value;
    }
  }

  /** A spec is restored exactly from its down-conversion and a copy of itself. */
  lemma SpecRoundTrip(hub: V1Beta2.AWSMachineSpec)
    ensures RestoreMachineSpec(hub, UpAWSMachineSpec(DownAWSMachineSpec(hub))) == hub
  {
    ReferencesRoundTrip(hub.additionalSecurityGroups, None);
  }

  /** Restoring changes nothing that a v1beta1 client can see, but the Ignition settings. */
  lemma SpecEditsSurvive(spoke: V1Beta1.AWSMachineSpec, restored: V1Beta2.AWSMachineSpec)
    ensures DownAWSMachineSpec(UpAWSMachineSpec(spoke)) == Kept(spoke)
    ensures DownAWSMachineSpec(RestoreMachineSpec(restored, UpAWSMachineSpec(spoke)))
            == Kept(spoke).(ignition := DownAWSMachineSpec(restored).ignition)
  {
    ReferencesRoundTrip(None, spoke.additionalSecurityGroups);
  }

  // ---------------------------------------------------------------------------------------------
  // AWSMachine
  // ---------------------------------------------------------------------------------------------

  function MachineFromHub(src: V1Beta2.AWSMachine): V1Beta1.AWSMachine {
    V1Beta1.AWSMachine(DownAWSMachineSpec(src.spec), DownAWSMachineStatus(src.status), Some(src))
  }

  /** What is left of the v1beta1 spec after conversion to the hub: edits count, except to Ignition once a copy is saved. */
  function SurvivingSpec(spec: V1Beta1.AWSMachineSpec, saved: Option<V1Beta2.AWSMachineSpec>): V1Beta1.AWSMachineSpec {
    if saved.None? then Kept(spec) else Kept(spec).(ignition := DownAWSMachineSpec(saved.value).ignition)
  }

  /** ConvertTo: undoes ConvertFrom exactly, and keeps what v1beta1 clients have edited in between. */
  method MachineToHub(src: V1Beta1.AWSMachine) returns (dst: V1Beta2.AWSMachine)
    ensures forall hub :: src == MachineFromHub(hub) ==> dst == hub
    ensures DownAWSMachineSpec(dst.spec)
            == SurvivingSpec(src.spec, if src.saved.None? then None else Some(src.saved.value.spec))
    ensures DownAWSMachineStatus(dst.status) == src.status
    ensures src.saved.Some? ==> RestoreMachineSpec(src.saved.value.spec, dst.spec) == dst.spec
                                && dst.status.dedicatedHost == src.saved.value.status.dedicatedHost
  {
    dst := V1Beta2.AWSMachine(UpAWSMachineSpec(src.spec), UpAWSMachineStatus(src.status));
    if src.saved.None? {
      ReferencesRoundTrip(None, src.spec.additionalSecurityGroups);
      return;
    }
    var restored := src.saved.value;
    SpecEditsSurvive(src.spec, restored.spec);
    SpecRoundTrip(restored.spec);
    dst := dst.(spec := RestoreMachineSpec(restored.spec, dst.spec));
    dst := dst.(status := dst.status.(dedicatedHost := restored.status.dedicatedHost));
  }

  // ---------------------------------------------------------------------------------------------
  // AWSMachineTemplate
  // ---------------------------------------------------------------------------------------------

  function TemplateFromHub(src: V1Beta2.AWSMachineTemplate): V1Beta1.AWSMachineTemplate {
    V1Beta1.AWSMachineTemplate(
      src.objectMeta, DownAWSMachineSpec(src.spec), DownAWSMachineTemplateStatus(src.status), Some(src))
  }

  /** ConvertTo: undoes ConvertFrom exactly; the template's own metadata always comes from the saved copy. */
  method TemplateToHub(src: V1Beta1.AWSMachineTemplate) returns (dst: V1Beta2.AWSMachineTemplate)
    ensures forall hub :: src == TemplateFromHub(hub) ==> dst == hub
    ensures DownAWSMachineSpec(dst.spec)
            == SurvivingSpec(src.spec, if src.saved.None? then None else Some(src.saved.value.spec))
    ensures DownAWSMachineTemplateStatus(dst.status) == src.status
    ensures dst.objectMeta == if src.saved.None? then src.objectMeta else src.saved.value.objectMeta
    ensures src.saved.Some? ==> RestoreMachineSpec(src.saved.value.spec, dst.spec) == dst.spec
                                && dst.status.nodeInfo == src.saved.value.status.nodeInfo
                                && dst.status.conditions == src.saved.value.status.conditions
  {
    dst := V1Beta2.AWSMachineTemplate(src.objectMeta, UpAWSMachineSpec(src.spec), UpAWSMachineTemplateStatus(src.status));
    if src.saved.None? {
      ReferencesRoundTrip(None, src.spec.additionalSecurityGroups);
      return;
    }
    var restored := src.saved.value;
    SpecEditsSurvive(src.spec, restored.spec);
    SpecRoundTrip(restored.spec);
    dst := dst.(objectMeta := restored.objectMeta);
    dst := dst.(spec := RestoreMachineSpec(restored.spec, dst.spec));
    dst := dst.(status := dst.status.(nodeInfo := restored.status.nodeInfo));
    dst := dst.(status := dst.status.(conditions := restored.status.conditions));
  }

  /** Converting to the hub and back gives a v1beta1 spec its value back exactly when it uses nothing v1beta2 lacks. */
  lemma SurvivesIff(spec: V1Beta1.AWSMachineSpec, saved: Option<V1Beta2.AWSMachineSpec>)
    ensures SurvivingSpec(spec, saved) == spec <==>
            && spec.failureDomain == Zero
            && (spec.additionalSecurityGroups.Some? ==>
                  forall k | 0 <= k < |spec.additionalSecurityGroups.value| :: spec.additionalSecurityGroups.value[k].arn == Zero)
            && (spec.subnet.Some? ==> spec.subnet.value.arn == Zero)
            && (saved.Some? ==> spec.ignition == DownAWSMachineSpec(saved.value).ignition)
  {
    var x := spec.additionalSecurityGroups;
    if x.Some? {
      if forall k | 0 <= k < |x.value| :: x.value[k].arn == Zero {
        assert WithoutARNs(x).value == x.value;
      } else {
        var k :| 0 <= k < |x.value| && x.value[k].arn != Zero;
        assert WithoutARNs(x).value[k] != x.value[k];
      }
    }
  }
}
