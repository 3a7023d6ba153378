# Verified models of the Cluster API provider for AWS

This project models the parts of the provider whose correctness depends on many steps fitting together, and proves
what they keep, over every run or every input:

- **Machine and cluster controllers** (`MachineProtocol`, `MachineInvariant`, `MachineFrames`, `MachineSafety`,
  `MachineDeletion`, `MachineResources`, `MachineObjects`, `MachineHosts`, `MachinePasses`, `MachineWitnesses`,
  `MachineController`, `ClusterProtocol`, `ClusterSafety`, `ClusterBucket`, `ClusterController`).  A reconcile pass is cut at every
  call that leaves the process.  Each call may succeed, fail, take effect and still report failure, or never return
  because the process dies; between two calls users, EC2 and other controllers may act.  Safety is proved over all such
  runs, for one machine and for any number of machines beside their cluster.  The reconcile functions are also written
  out as methods with early returns, and every method is proved to take only steps of the machine.
- **Differences that must converge** (`StringSorting`, `SliceOverlap`, `IngressRules`, `SecurityGroups`, `TagDiff`,
  `SuspendProcesses`, `LoadBalancerAttachment`, `SecretChunks`).
- **API conversion** between v1beta1 and v1beta2 (`ApiTypes`, `MachineConversion`, `ClusterConversion`).
- **Admission** as a transition relation (`ClusterAdmission`, `ClusterCreation`, `MachineAdmission`), and **provider IDs** (`ProviderIds`).

`dafny verify dfyconfig.toml` checks everything.

## What the models take for granted

- A pass reads the current object, one pass per object is under way at a time, and the name of an AWSMachine is used
  once.  Nobody but the controllers writes provider IDs, secret records or these finalizers, and there is no other
  finalizer on the objects.
- `PatchObject` sends what changed since the scope was created; metadata and spec travel in one request, status in
  another, and each of the two may be lost.
- A lookup by ID returns the instance with that ID, nothing, or an error.  The lookup by tags returns a pending or
  running instance of the machine, or nothing if there is none (pkg/cloud/services/ec2/instances.go:46-76).  A
  terminated instance stays terminated.
- A machine keeps its user data in secrets or uses Ignition or neither; this does not change, and a failed call to
  create secrets leaves no entry beyond those it counts.
- Machines are added only while their cluster has no deletion timestamp.
- In `ClusterBucket` alone: only the cluster's machines keep objects in its bucket, and S3 says truly whether it is empty.
- The copy of the hub object that conversion leaves in an annotation, and the annotations about tags and groups, are
  faithful encodings.
- EC2's DeleteTags is sent keys with values and removes a tag only if it has that value.

## Where the code does not do what one would expect

Each of these is a lemma with a concrete run or input, next to the exact condition under which things go well.

- The tag lookup does not see stopped instances, nor those that are shutting down.  An instance that is stopped before
  its ID is recorded is replaced by a second (`StoppedInstanceIsReplaced`) or left behind (`StoppedInstanceIsOrphaned`),
  and the object may go while its instance is still shutting down (`ObjectGoesDuringShutdown`).  From a state between
  passes, a pass can launch exactly if the machine records no instance and no pending or running one exists
  (`LaunchIff`); it can remove the object exactly if a lookup finds nothing or a terminated instance (`RemovalIff`), so
  that an instance is left behind exactly if no lookup sees it (`LeftBehindIff`).  A recorded instance never is
  (`RecordedInstanceGone`).
- Secrets are lost in two ways: a crash between creating them and the patch of their prefix (`CrashLosesSecret`), and,
  with every patch delivered, a retry that stores fewer of them under the same prefix (`ShrinkingRetryLosesSecret`).
  There is no third way (`SecretsKeptIff`).
- A bootstrap object outlives its machine (`ObjectOutlivesMachine`) exactly if the deletion pass that removes the machine
  runs while its Machine names no bootstrap data (`ObjectLeftIff`): the code then takes it that there is nothing to
  delete.  The cluster's bucket, in turn, outlives the cluster exactly if a machine left its object in it (`BucketLeftIff`).
- A pass that records a prefix and drops the secrets again leaves the prefix persisted (`PrefixOutlivesSecrets`,
  `PersistedPrefixIff`).
- A recorded dedicated host is released only if the deletion pass finds the terminated instance.  It stays allocated if
  the instance was never launched (`HostOutlivesAbsentInstance`), and also if it was and EC2 has forgotten it
  (`HostOutlivesLaunchedInstance`, `HostLeftIff`).  A host whose allocation is reported as failed, or whose ID is lost
  before the status is patched, stays for ever (`AllocationForgotten`, `AllocationPatchedIff`, `UnknownHostForever`).
  These are the only ways to lose track of a host (`HostsKnownIff`).
- Storing user data in several secrets reports the error of the last piece only (`LostPiece`, `CompleteIff`).
- Sorting rule lists in place is harmless exactly if no two of them overlap in part (`HarmlessIff`).
- A tag map that is withdrawn after a failed attempt can leave its tags behind (`WithdrawnTagStays`, `GivingUpIff`),
  and a volume forgets what it should remove after a failed update (`VolumeRetryIff`).
- A registration that failed at the second target group is reported as complete by the next pass
  (`HalfRegistrationSticks`, `NilMeans`); deregistration stops at the first classic load balancer and drops the errors
  before it (`UpToFirstClassic`, `LeavesIff`).
- Subnets that share an ID are restored exactly if they agree (`SubnetsRestoredIff`), and converting a cluster whose
  v1beta1 form lost a structure that the saved copy fills in fails with a panic (`ClusterToHub`).
- Adding a secondary load balancer with its default scheme is refused (`SecondaryAddedIff`); equal names of the two load
  balancers are admitted although the comment in the code rules them out, since pointers are compared
  (`ValidateControlPlaneLBs`, `EqualNamesAdmitted`); updates are not held to the rules of creation (`UpdateSkipsRules`,
  `CreationRulesKeptIff`).

## Model

| member | source | states |
|---|---|---|
| `MachineInvariant.InvStep` | controllers/awsmachine_controller.go:157-703 | Every call, outcome, crash and outside event keeps the invariant that ties the persisted object, the in-memory object, the copy taken at the start of the pass and the cloud together at each program point |
| `MachineInvariant.InvFrom` | controllers/awsmachine_controller.go:157-703 | The invariant holds after every sequence of events from a state in which it holds |
| `MachineInvariant.InvReachable` | controllers/awsmachine_controller.go:157-703 | The invariant holds in every state a new machine can get to |
| `MachineInvariant.PatchFrame` | controllers/awsmachine_controller.go:544-562 | A merge patch, delivered, lost or half delivered, keeps the relation between the persisted object and the pass |
| `MachineFrames.FrameCall` | controllers/awsmachine_controller.go:304-706 | What any call leaves alone: the copy read at the start, the timestamp, IDs but together, hosts, secrets and instances but at their own calls; and a pass never comes back to the launch |
| `MachineSafety.NoNilDereference` | controllers/awsmachine_controller.go:336-461 | In every reachable state the instance or host ID that the next statement dereferences is there |
| `MachineSafety.CreatedUnderFinalizer` | controllers/awsmachine_controller.go:544-576 | A step that adds an instance, a secret, a bootstrap object or a host happens while the finalizer is persisted, and leaves it so |
| `MachineSafety.SecretRecordConsistent` | controllers/awsmachine_controller.go:827-847 | In every persisted state the prefix is set exactly when the count is not zero |
| `MachineSafety.LaunchUsesPersistedSecrets` | controllers/awsmachine_controller.go:768-782 | An instance is launched only with user data that names the prefix and count that are persisted |
| `MachineSafety.BootstrapDataNotDroppedEarly` | controllers/awsmachine_controller.go:750-765 | Secrets and bootstrap objects disappear only for a machine that is failed, deleted, in no operational recorded state, or a node |
| `MachineSafety.NoPrefixPastDeletion` | controllers/awsmachine_controller.go:653-658 | Past the deletion step, a pass of a machine whose data nobody needs holds no prefix and no count in memory; what is persisted is the subject of PersistedPrefixIff |
| `MachineSafety.IdsStep` | controllers/awsmachine_controller.go:602-604 | Every step keeps: wherever an instance ID is recorded, the provider ID names the same instance |
| `MachineSafety.FinalizerLeaves` | controllers/awsmachine_controller.go:309-399 | The finalizer leaves only in the last patch of a pass that saw the instance absent or terminated, holds no secret record, and, if terminated with a dynamic host, released the host and persisted that |
| `MachineSafety.RecordedForever` | controllers/awsmachine_controller.go:530-604 | Once a provider ID is persisted it stays, in every continuation; the persisted instance ID is never another instance; and no instance is launched again |
| `MachineSafety.StoreEffect` | controllers/awsmachine_controller.go:157-243 | The persisted object changes only by deletion requests and patches |
| `MachineSafety.LaunchEffect` | controllers/awsmachine_controller.go:768-782 | Instances come into being only at the one launch call |
| `MachineSafety.SecretsEffect` | controllers/awsmachine_controller.go:735-766 | Secrets appear only at the create call and disappear only where the record says they are to be deleted |
| `MachineSafety.ObjectEffect` | controllers/awsmachine_controller.go:852-989 | The bootstrap object appears only at the upload and disappears only where it is no longer needed |
| `MachineSafety.SafeStep` | controllers/awsmachine_controller.go:467-604 | Every undisturbed step keeps: at most one instance, and each is recorded, or visible to the tag lookup, or dying after deletion |
| `MachineSafety.SafeRun` | controllers/awsmachine_controller.go:467-604 | The same after every undisturbed run |
| `MachineSafety.AtMostOneInstance` | controllers/awsmachine_controller.go:467-604 | At most one instance is ever launched for a machine, whatever fails, including a launch whose ID is not recorded |
| `MachineSafety.NoOrphanInstance` | controllers/awsmachine_controller.go:316-399 | Once the object is gone, every instance ever launched for it is gone, terminated or shutting down |
| `MachineDeletion.SeenStep` | controllers/awsmachine_controller.go:316-461 | What a deleting pass saw, that the recorded instance is absent or the found one terminated, stays true until the pass ends |
| `MachineDeletion.RecordedInstanceGone` | controllers/awsmachine_controller.go:316-399 | When the object goes, the instance whose ID it records is gone or terminated, also if others stopped or started it |
| `MachineResources.RecordStep` | controllers/awsmachine_controller.go:816-848 | Every step keeps: the record in memory is the persisted one, but between creation and patch, where its last entry exists |
| `MachineResources.CreateCoveredIff` | pkg/cloud/services/secretsmanager/secret.go:66-86 | After the create call the record covers every secret if and only if nothing was created or no existing entry is beyond the new count |
| `MachineResources.CrashAfterCreateIff` | controllers/awsmachine_controller.go:827-836 | Right after secrets are created, a crash leaves every secret recorded if and only if none was created or the persisted record already took them in |
| `MachineResources.StepCoveredIff` | controllers/awsmachine_controller.go:735-848 | A step keeps every secret covered by the record that counts if and only if it neither ends a pass whose record is not persisted nor shrinks the record below an existing entry |
| `MachineResources.SecretsKeptIff` | controllers/awsmachine_controller.go:735-848 | The secrets stay covered throughout a run if and only if, in it, (1) no crash, and no last patch that loses its spec half, ends a pass whose record in memory is not persisted, and (2) no create call that stores anything leaves an existing entry at or beyond the count it records |
| `MachineResources.NoSecretLeft` | controllers/awsmachine_controller.go:735-848 | In a run whose steps keep the record, every secret is recorded between passes and none outlives the object |
| `MachineResources.PersistedPrefixIff` | controllers/awsmachine_controller.go:653-658 | When a pass gets past the deletion step of data nobody needs and its last patch is delivered, no prefix is persisted if and only if the pass did not itself record it |
| `MachineObjects.ObjectStep` | controllers/awsmachine_controller.go:852-989 | Every step keeps: an object exists only for a machine that uses the store, and a deleting pass past the deletion step whose Machine names its bootstrap data has removed it |
| `MachineObjects.ObjectLeftIff` | controllers/awsmachine_controller.go:960-989 | When a deletion pass removes the API object, the bootstrap object stays if and only if it existed when the pass began and the Machine named no bootstrap data then |
| `MachineObjects.GoneObjectFixed` | controllers/awsmachine_controller.go:960-989 | Once the API object is gone, no step creates or deletes the bootstrap object |
| `MachineHosts.HostStep` | controllers/awsmachine_controller.go:366-399 | Every step keeps: the persisted host is the one read or the one in memory, and a deleting pass changes neither |
| `MachineHosts.HostLeftIff` | controllers/awsmachine_controller.go:322-399 | When a deletion pass removes an object with a recorded dynamic host, the host stays allocated if and only if the pass found no instance and the host was allocated when the pass began |
| `MachineHosts.UnknownHostForever` | pkg/cloud/services/ec2/instances.go:1331-1382 | A host that neither the object nor a pass knows of stays allocated in every continuation |
| `MachineHosts.AllocationForgotten` | pkg/cloud/services/ec2/instances.go:1331-1382 | An allocation leaves such a host if and only if it is reported as failed; a crash right after it always does |
| `MachineHosts.AllocationPatchedIff` | pkg/cloud/services/ec2/instances.go:262-275 | At the end of the pass that allocated it, the host is forgotten if and only if the status patch is lost |
| `MachineHosts.StepKnownIff` | controllers/awsmachine_controller.go:322-399 | A step keeps every allocated host known to the object or the pass if and only if it is no allocation reported as failed, ends no pass by a crash or without its status patch while its host is not persisted, and does not drop the finalizer of an object whose host is allocated |
| `MachineHosts.HostsKnownIff` | pkg/cloud/services/ec2/instances.go:1331-1382 | All hosts stay known throughout a run if and only if none of these three happens in it |
| `MachineHosts.NoHostLeft` | controllers/awsmachine_controller.go:366-399 | In a run without them no host is allocated once the object is gone |
| `MachinePasses.LaunchIff` | controllers/awsmachine_controller.go:499-604 | From any reachable state between passes, a pass without interference can launch an instance if and only if the machine is live, not failed and not of a pool, can produce user data, records no instance, and no pending or running one exists |
| `MachinePasses.RemovalIff` | controllers/awsmachine_controller.go:304-399 | From any reachable state between passes of a deleted machine, a pass without interference can remove the object if and only if its secrets can be dropped and a lookup finds nothing or a terminated instance; it leaves the instances as they were |
| `MachinePasses.LeftBehindIff` | controllers/awsmachine_controller.go:316-334 | An instance that is neither gone nor terminated is left behind by such a pass if and only if no lookup sees it: nothing is recorded and none is pending or running, or another one is recorded and gone |
| `MachineWitnesses.StoppedInstanceIsReplaced` | pkg/cloud/services/ec2/instances.go:46-76 | There is a run that launches two instances, because the first was stopped before it was recorded |
| `MachineWitnesses.StoppedInstanceIsOrphaned` | pkg/cloud/services/ec2/instances.go:46-76 | There is a run that removes the object and leaves a stopped instance |
| `MachineWitnesses.ObjectGoesDuringShutdown` | controllers/awsmachine_controller.go:316-334 | There is a run that removes the object while an instance without recorded ID is still shutting down |
| `MachineWitnesses.CrashLosesSecret` | controllers/awsmachine_controller.go:827-836 | There is an otherwise undisturbed run that removes the object and leaves a secret |
| `MachineWitnesses.ShrinkingRetryLosesSecret` | pkg/cloud/services/secretsmanager/secret.go:66-86 | There is a run without crash and with every patch delivered that removes the object and leaves a secret, because a retry recorded fewer |
| `MachineWitnesses.PrefixOutlivesSecrets` | controllers/awsmachine_controller.go:653-658 | There is a run with every patch delivered that ends with no secret and a persisted prefix |
| `MachineWitnesses.HostOutlivesAbsentInstance` | controllers/awsmachine_controller.go:322-334 | There is a run that removes the object and leaves the host it recorded allocated |
| `MachineWitnesses.HostOutlivesLaunchedInstance` | controllers/awsmachine_controller.go:316-334 | The same for an instance that was launched and recorded, and that EC2 has forgotten |
| `MachineWitnesses.ObjectOutlivesMachine` | controllers/awsmachine_controller.go:966-969 | There is a run with every patch delivered that removes the machine and leaves the object it uploaded |
| `MachineController.Reconciler.Reconcile` | controllers/awsmachine_controller.go:157-243 | A whole pass, with any outcomes and interference, extends the run by steps of the machine and ends between passes |
| `MachineController.Reconciler.ReconcileNormal` | controllers/awsmachine_controller.go:499-706 | Every path through the function takes only steps of the machine and ends at the deferred patch |
| `MachineController.Reconciler.ReconcileDelete` | controllers/awsmachine_controller.go:304-462 | Every path through the function takes only steps of the machine and ends at the deferred patch |
| `MachineController.Reconciler.FindInstance` | controllers/awsmachine_controller.go:467-497 | The lookup by ID or by tags, with its errors, is a step of the machine |
| `MachineController.Reconciler.CreateInstance` | controllers/awsmachine_controller.go:768-782 | User data, host and launch, in this order and with every early return, are steps of the machine |
| `MachineController.Reconciler.ResolveUserData` | controllers/awsmachine_controller.go:784-814 | The choice between secrets, object store and plain user data follows the machine |
| `MachineController.Reconciler.CloudInitUserData` | controllers/awsmachine_controller.go:816-848 | The record is patched before the error of the create call is looked at |
| `MachineController.Reconciler.GenerateIgnitionWithRemoteStorage` | controllers/awsmachine_controller.go:852-922 | Uploading the bootstrap object is a step of the machine |
| `MachineController.Reconciler.DeleteBootstrapData` | controllers/awsmachine_controller.go:934-958 | Without error the pass returns to its caller with the bootstrap data dropped as the machine says |
| `MachineController.Reconciler.DeleteEncryptedBootstrapDataSecret` | controllers/awsmachine_controller.go:735-766 | Keeping, deleting or refusing to delete secrets is decided as in the machine |
| `MachineController.Reconciler.DeleteIgnitionBootstrapData` | controllers/awsmachine_controller.go:960-989 | Deleting the bootstrap object is a step of the machine |
| `MachineController.Reconciler.EnsureDedicatedHost` | pkg/cloud/services/ec2/instances.go:1331-1382 | A recorded host is reused, otherwise one is allocated and recorded in memory |
| `MachineController.Reconciler.RunInstance` | pkg/cloud/services/ec2/instances.go:284-334 | The provider ID is set in memory right after the launch, also if a later call fails |
| `MachineController.Reconciler.DetachAndTerminate` | controllers/awsmachine_controller.go:338-462 | The three cases of the instance state, with host release, patches, termination and clean-up in order, are steps of the machine |
| `MachineController.Reconciler.DetachInterfaces` | controllers/awsmachine_controller.go:417-445 | After termination, the patch before detaching security groups and the errors around it are steps of the machine |
| `ClusterProtocol.SystemInvRun` | controllers/awscluster_controller.go:204-387 | In every interleaving of any number of machine controllers with the cluster controller, the machines are safe and the cluster deletes only when no machine is left |
| `ClusterProtocol.ClusterInvStep` | controllers/awscluster_controller.go:204-387 | Every step keeps: resources exist only under the persisted finalizer, and a pass without errors has removed every kind it has passed |
| `ClusterProtocol.LastRemoval` | controllers/awscluster_controller.go:246-282 | When the last delete call succeeds and none before it failed, nothing is left but the bucket and external resources |
| `ClusterSafety.RecordedOrGoneRun` | controllers/awscluster_controller.go:212-221 | In every interleaving, an instance once recorded is recorded still, or gone or terminated with its object |
| `ClusterSafety.EveryInstanceLookedFor` | controllers/awsmachine_controller.go:316-399 | For every instance whose object is gone there is a step that removed it after looking: the recorded one was gone or terminated, or nothing was recorded and the tags led to nothing |
| `ClusterSafety.ClusterWaitsForMachines` | controllers/awscluster_controller.go:212-221 | Whenever cluster resources are being deleted, no machine object is left; every instance ever launched was looked for when its object went, and found absent or terminated if recorded, absent if not; and one that was ever recorded is gone or terminated |
| `ClusterSafety.ResourceRemovedAfterMachines` | controllers/awscluster_controller.go:204-282 | A cluster resource disappears only from a deleted cluster and only after all that |
| `ClusterSafety.NoOrphanClusterResource` | pkg/cloud/services/s3/s3.go:167-183 | Once the AWSCluster is gone, only its bucket or external resources can be left; for the bucket, BucketLeftIff says when |
| `ClusterBucket.BucketStep` | pkg/cloud/services/s3/s3.go:167-183 | Every step keeps: a pass that got past the bucket without error and left it, and a cluster that is gone and left it, left it with a machine's object inside |
| `ClusterBucket.BucketRemovedEmpty` | pkg/cloud/services/s3/s3.go:167-183 | The bucket is deleted only when no machine has an object in it and every instance has been observed gone |
| `ClusterBucket.BucketLeftIff` | pkg/cloud/services/s3/s3.go:167-183 | In every interleaving, a bucket the cluster had outlives the AWSCluster if and only if some machine, gone too, left its bootstrap object in it |
| `ClusterController.ClusterReconciler.Reconcile` | controllers/awscluster_controller.go:137-202 | A whole pass is a run of the system; a resource it removed was removed when every instance had been observed gone |
| `ClusterController.ClusterReconciler.ReconcileDelete` | controllers/awscluster_controller.go:204-282 | Every path takes only steps of the system and ends at the deferred patch |
| `ClusterController.ClusterReconciler.CountDependencies` | controllers/awscluster_controller.go:482-501 | The pass goes on only if no AWSMachine of the cluster is listed at that moment |
| `ClusterController.ClusterReconciler.Delete` | controllers/awscluster_controller.go:248-269 | Whatever a delete call reports, the next one is made, and the error is remembered |
| `ClusterController.ClusterReconciler.DeleteNetwork` | controllers/awscluster_controller.go:271-282 | The finalizer is dropped in memory only if no call failed and the network is gone |
| `ClusterController.ClusterReconciler.ReconcileNormal` | controllers/awscluster_controller.go:316-387 | The finalizer is persisted first; the first failed call ends the pass |
| `StringSorting.OrderedUnique` | api/v1beta2/network_types.go:1086-1145 | Two ordered lists with the same multiset of strings are equal |
| `StringSorting.SortedEqual` | api/v1beta2/network_types.go:1086-1145 | Sorted copies are equal if and only if the lists are permutations of each other |
| `StringSorting.SortStrings` | api/v1beta2/network_types.go:1086-1145 | Sorting one slice in place permutes that list and leaves the contents of every other list, also when it shares the array |
| `SliceOverlap.ApartKept` | api/v1beta2/network_types.go:1086-1145 | Sorting two windows of one array keeps what each holds if they are apart, equal or empty |
| `SliceOverlap.OverlapLoses` | api/v1beta2/network_types.go:1086-1145 | For every other pair of windows some content is torn between them |
| `SliceOverlap.HarmlessIff` | api/v1beta2/network_types.go:1086-1145 | Sorting both is harmless for every content if and only if the windows are apart, equal or empty |
| `IngressRules.SameList` | api/v1beta2/network_types.go:1086-1145 | One list comparison decides equality of multisets and only permutes the two lists |
| `IngressRules.Equals` | api/v1beta2/network_types.go:1086-1145 | The method decides equality of the lists as multisets, of description and protocol, and of the ports where they matter, and changes no list but by order, even when rules share arrays |
| `IngressRules.SameRuleIsEquivalence` | api/v1beta2/network_types.go:1086-1145 | What Equals decides is reflexive, symmetric and transitive |
| `IngressRules.Contains` | api/v1beta2/network_types.go:1065-1083 | The inner loop decides whether a rule equals one of the others, although it reorders their lists |
| `IngressRules.Difference` | api/v1beta2/network_types.go:1065-1083 | The result is the subsequence of rules equal to none of the others, whatever the reordering meanwhile |
| `IngressRules.UnmatchedMembers` | api/v1beta2/network_types.go:1065-1083 | A rule is in the difference exactly if it is in the list and equals none of the others |
| `IngressRules.DifferencesConverge` | pkg/cloud/services/securitygroup/securitygroups.go:172-186 | Revoking one difference and authorizing the other leaves exactly the wanted rules, up to equality |
| `IngressRules.PlanRules` | pkg/cloud/services/securitygroup/securitygroups.go:172-186 | The two calls on lists in memory, the second after the first has reordered them, lead there |
| `SecurityGroups.SameAsWanted` | controllers/awsmachine_security_groups.go:107-123 | An interface's list passes the comparison if and only if it has the wanted groups as a set and no repetition |
| `SecurityGroups.BuildState` | controllers/awsmachine_security_groups.go:81-97 | After the three loops a group is kept exactly if it is core or additional, whatever the annotation says and in whatever order it is ranged over |
| `SecurityGroups.SecurityGroupsChanged` | controllers/awsmachine_security_groups.go:80-123 | The list is core plus additional without repetition; a change is reported exactly if some interface differs from it as a multiset; the sorting in place only permutes |
| `SecurityGroups.Instance.UpdateInstanceSecurityGroups` | pkg/cloud/services/ec2/instances.go:812-829 | Every interface gets the list or, if a call fails, the list or what it had |
| `SecurityGroups.Instance.EnsureSecurityGroups` | controllers/awsmachine_security_groups.go:41-77 | Without error every interface ends with the wanted groups, and the result says whether that was so before; with an error each interface is as before or as wanted |
| `SecurityGroups.Instance.EnsureTwice` | controllers/awsmachine_security_groups.go:41-123 | A second pass for the same groups reports no change and changes nothing, even if the annotation was lost or overwritten in between |
| `TagDiff.TagsChanged` | controllers/awsmachine_tags.go:88-152 | A change is reported exactly if the annotation is not the wanted map; the three maps are the new or changed, the removed and the wanted keys, in any order of ranging |
| `TagDiff.Resource.UpdateResourceTags` | pkg/cloud/services/ec2/instances.go:835-877 | Creation comes before removal, empty requests are not sent, and a failure stops what follows |
| `TagDiff.Resource.EnsureTags` | controllers/awsmachine_tags.go:42-67 | The annotation changes only after both requests succeeded |
| `TagDiff.Resource.EnsureVolumeTags` | controllers/awsmachine_tags.go:71-85 | A failed update replaces the record of the volume by nothing |
| `TagDiff.ApplyAgain` | controllers/awsmachine_tags.go:42-67 | Whatever part of a change was applied, applying it again gives the same tags |
| `TagDiff.RoundSettles` | controllers/awsmachine_tags.go:42-67 | Any number of failed attempts and lost annotations, followed by success with the same map, gives the tags of that map |
| `TagDiff.HistorySettles` | controllers/awsmachine_tags.go:42-152 | After any sequence of wanted maps the last one is there, keys only earlier maps had are gone, and every other tag is as it was |
| `TagDiff.GivingUpIff` | controllers/awsmachine_tags.go:42-67 | A failed attempt at one map followed by success with another gives the right tags if and only if the other map wants each key the attempt wrote, with that value or one that differs from the annotation, and does not rely on a key the attempt removed |
| `TagDiff.WithdrawnTagStays` | controllers/awsmachine_tags.go:42-67 | A tag written by a pass that crashed before saving, and then withdrawn, stays |
| `TagDiff.VolumeRetryIff` | controllers/awsmachine_controller.go:1295-1324 | On a volume a recorded failure is made good by a retry with the same map if and only if nothing had to be removed or the removal took effect |
| `SuspendProcesses.Diff` | exp/controllers/awsmachinepool_controller.go:568-596 | The two lists have no repetition and nothing in common, and applying them to the current set gives the desired one, for lists with repetitions and any order of ranging |
| `SuspendProcesses.AutoScalingGroup.UpdateProcesses` | exp/controllers/awsmachinepool_controller.go:556-607 | Without error exactly the desired processes are suspended; with an error nothing desired and suspended was resumed and nothing else was suspended |
| `LoadBalancerAttachment.Service.ReconcileLBAttachment` | controllers/awsmachine_controller.go:993-1023 | The loop, with its gaps, failures and early return, computes the pass about which the lemmas speak |
| `LoadBalancerAttachment.Service.RegisterInstanceToV2LB` | controllers/awsmachine_controller.go:1062-1092 | Registration up to the first target group that fails, unless some group has the instance already |
| `LoadBalancerAttachment.Service.DeregisterInstanceFromV2LB` | controllers/awsmachine_controller.go:1118-1142 | Deregistration from each group that has the instance, up to the first that fails |
| `LoadBalancerAttachment.RegisterMeans` | controllers/awsmachine_controller.go:1025-1092 | For every type: without error the instance is a member, membership is never lost, an error at a classic load balancer or of an unknown type changes nothing, and no other load balancer is touched |
| `LoadBalancerAttachment.ClassicUndone` | controllers/awsmachine_controller.go:1038-1116 | Registering with the classic load balancer and leaving it undo each other; a failure to leave keeps the instance a member |
| `LoadBalancerAttachment.EveryEntryTried` | controllers/awsmachine_controller.go:993-1023 | For every list, repeated names and types of every kind included, but without a classic entry on the way out: each load balancer some entry deals with ends as if that entry were alone, whatever happens to the others, and the target groups of no other are touched |
| `LoadBalancerAttachment.EveryErrorReported` | controllers/awsmachine_controller.go:993-1023 | With each load balancer listed once, the errors are those of the entries, each tried alone, in order |
| `LoadBalancerAttachment.NilMeans` | controllers/awsmachine_controller.go:1062-1142 | A nil result leaves the instance in no group of any entry, or in some group of each; it is in every group exactly of those that had it in none or in all before |
| `LoadBalancerAttachment.HalfRegistrationSticks` | pkg/cloud/services/elb/loadbalancer.go:951-1060 | After a failure at the second group, a pass without failures reports success and leaves that group out |
| `LoadBalancerAttachment.UpToFirstClassic` | controllers/awsmachine_controller.go:1007-1015 | On the way out, the first classic entry ends the pass, decides the result alone, and makes what follows irrelevant |
| `LoadBalancerAttachment.LeavesIff` | controllers/awsmachine_controller.go:993-1023 | A nil result means that the instance has left, for every cloud and all failures, if and only if the list has classic entries and no target-group ones, or no classic and no empty type |
| `SecretChunks.Create` | pkg/cloud/services/secretsmanager/secret.go:55-87 | Entries 0 to count-1 hold the pieces that could be written, in order; entries of an earlier attempt survive beyond the count, and at the count unless a failed write lost them; success is reported exactly if the last piece was written or there was none |
| `SecretChunks.Delete` | pkg/cloud/services/secretsmanager/secret.go:123-132 | Every recorded entry whose call works is gone, and success is reported exactly if all calls work |
| `SecretChunks.CreateThenDelete` | pkg/cloud/services/secretsmanager/secret.go:55-132 | Deleting what a retry recorded leaves exactly the earlier entries beyond its count |
| `SecretChunks.Split` | pkg/internal/bytes/bytes.go:27-41 | The loop hands out the pieces of the data, none of them empty |
| `SecretChunks.ChunksJoin` | pkg/internal/bytes/bytes.go:27-41 | The pieces put together are the data |
| `SecretChunks.CompleteIff` | pkg/cloud/services/secretsmanager/secret.go:55-87 | What can be read back is the data if and only if no write failed |
| `SecretChunks.LostPiece` | pkg/cloud/services/secretsmanager/secret.go:73-86 | With the second of three pieces lost, success is reported and the other two read back as if they were all |
| `MachineConversion.SpecRoundTrip` | api/v1beta1/zz_generated.conversion.go:1322-1446 | A machine spec is restored exactly from its down-conversion and the saved copy |
| `MachineConversion.SpecEditsSurvive` | api/v1beta1/awsmachine_conversion.go:27-70 | Restoring changes nothing that a v1beta1 client sees, but the Ignition settings |
| `MachineConversion.MachineToHub` | api/v1beta1/awsmachine_conversion.go:27-70 | Conversion to the hub undoes conversion from it exactly; edits made to the v1beta1 object in between stay, but for Ignition, failure domain and ARNs |
| `MachineConversion.TemplateToHub` | api/v1beta1/awsmachine_conversion.go:98-146 | The same for templates, whose metadata comes from the saved copy |
| `MachineConversion.SurvivesIff` | api/v1beta1/zz_generated.conversion.go:1322-1376 | A v1beta1 spec comes back unchanged from the hub if and only if it has no failure domain and no ARN, and its Ignition is the saved one |
| `ClusterConversion.RestoreSubnets` | api/v1beta1/awscluster_conversion.go:137-153 | The nested loop in place gives each subnet what all saved subnets with its ID, in order, say |
| `ClusterConversion.OverlayProgress` | api/v1beta1/awscluster_conversion.go:137-153 | Part way, each field is empty or right, and right once the subnet's own saved copy is past |
| `ClusterConversion.SubnetsRestoredIff` | api/v1beta1/awscluster_conversion.go:137-153 | Every subnet is restored exactly if and only if subnets that share an ID agree on the forgotten fields; unique IDs are enough |
| `ClusterConversion.RestoreSecurityGroups` | api/v1beta1/awscluster_conversion.go:78-80 | The saved groups overwrite the converted ones in any order of ranging; it fails exactly on a nil map with something to write |
| `ClusterConversion.VPCRestored` | api/v1beta1/awscluster_conversion.go:88-134 | A VPC is restored exactly, and edits by v1beta1 clients stay |
| `ClusterConversion.RestoreNetworkSpec` | api/v1beta1/awscluster_conversion.go:88-152 | The network is restored exactly if and only if its subnets agree, and what a v1beta1 client sees of it stays |
| `ClusterConversion.RestoreSpec` | api/v1beta1/awscluster_conversion.go:41-152 | The spec is restored exactly if and only if its subnets agree; a v1beta1 client's edits stay, but for the load balancer and the bucket |
| `ClusterConversion.RestoreStatus` | api/v1beta1/awscluster_conversion.go:46-81 | The status is restored exactly; it fails exactly if the saved bastion or groups have no place to go |
| `ClusterConversion.PlainRoundTrip` | api/v1beta1/zz_generated.conversion.go:875-952 | Without a saved copy a v1beta1 cluster goes to the hub and back unchanged |
| `ClusterConversion.ClusterToHub` | api/v1beta1/awscluster_conversion.go:28-156 | Conversion to the hub undoes conversion from it if and only if subnets that share an ID agree, and never fails on its result; for any other v1beta1 object it fails exactly if the saved copy dangles |
| `ClusterAdmission.Defaulted` | api/v1beta2/defaults.go:57-80 | The result has identity, primary load balancer with a type, and a complete secondary if any; an object that has them is left alone |
| `ClusterAdmission.ValidateControlPlaneLoadBalancerUpdate` | webhooks/awscluster_webhook.go:189-250 | Accepts exactly if scheme, name, target group IP type and being disabled stay and, unless classic, the protocol; a new one must be internet-facing; a removed one is a nil dereference |
| `ClusterAdmission.ValidatePairs` | webhooks/awscluster_webhook.go:117-129 | The pairs are judged in any order; with both old load balancers nil the primary is not looked at |
| `ClusterAdmission.ValidateUpdate` | webhooks/awscluster_webhook.go:95-187 | Accepts exactly if the listed fields may follow; panics exactly if an existing load balancer is removed |
| `ClusterAdmission.HistoryFrozen` | webhooks/awscluster_webhook.go:95-250 | Along every chain of accepted defaulted updates, region and the primary's scheme, name, target group IP type and disabled-or-not stay, VPC ID and endpoint stay once set, the identity never disappears, and a secondary stays with the same fields |
| `ClusterAdmission.ProtocolFrozen` | webhooks/awscluster_webhook.go:228-238 | While the primary is not classic its health check protocol stays |
| `ClusterAdmission.ReconcilerWritesAccepted` | webhooks/awscluster_webhook.go:131-149 | Setting the endpoint and the VPC for the first time, and any other network change, is accepted |
| `ClusterAdmission.SecondaryAddedIff` | webhooks/awscluster_webhook.go:192-200 | A secondary can be added to a defaulted cluster if and only if its scheme is given as internet-facing |
| `ClusterAdmission.UndefaultedPrimaryUnchecked` | webhooks/awscluster_webhook.go:117-129 | An object that was never defaulted accepts any primary load balancer |
| `ClusterCreation.ValidateTargetGroupIPType` | webhooks/awscluster_webhook.go:517-530 | Accepts exactly if no type is given, or the load balancer is not classic and IPv6 is enabled where the type asks for it |
| `ClusterCreation.ValidateListeners` | webhooks/awscluster_webhook.go:409-413 | Accepts exactly if every listener's target group IP type is allowed |
| `ClusterCreation.ValidateIngressRules` | webhooks/awscluster_webhook.go:498-513 | Accepts exactly if no rule mixes sources of different kinds |
| `ClusterCreation.ValidateSecondary` | webhooks/awscluster_webhook.go:461-493 | Accepts exactly if the secondary has a name, another scheme, is an NLB with allowed settings, and the two name pointers differ |
| `ClusterCreation.ValidateControlPlaneLBs` | webhooks/awscluster_webhook.go:387-496 | On a decoded and defaulted object it accepts exactly if the rules hold that say nothing of equal names; the rule against them fires exactly if both are missing |
| `ClusterCreation.EqualNamesAdmitted` | webhooks/awscluster_webhook.go:459-472 | Whatever name the primary is given, the secondary's included, admission is the same |
| `ClusterCreation.CreationRulesKeptIff` | webhooks/awscluster_webhook.go:95-187 | An accepted update keeps the rules of creation if and only if it configures nothing on a disabled primary, gives allowed settings, keeps the secondary an NLB, and adds none without name or beside an internet-facing primary |
| `ClusterCreation.UpdateSkipsRules` | webhooks/awscluster_webhook.go:95-187 | Every admitted secondary can be turned into a classic load balancer by an update |
| `MachineAdmission.DeleteAllowed` | webhooks/awsmachine_webhook.go:125-166 | The deletions remove the allow-listed keys at both levels and nothing else |
| `MachineAdmission.DeletedIsFixed` | webhooks/awsmachine_webhook.go:125-166 | Deleting the keys from the unstructured form is the same as clearing the fields in the spec |
| `MachineAdmission.FieldsTellApart` | webhooks/awsmachine_webhook.go:168-170 | The unstructured form tells all other fields apart |
| `MachineAdmission.SameSpec` | webhooks/awsmachine_webhook.go:125-170 | The comparison decides whether anything outside the allow-list changed |
| `MachineAdmission.ValidateCloudInitSecret` | webhooks/awsmachine_webhook.go:175-195 | Accepts exactly if prefix and count are set together, and nothing is set when secrets are skipped |
| `MachineAdmission.ValidateAdditionalSecurityGroups` | webhooks/awsmachine_webhook.go:478-487 | Accepts exactly if no reference has both an ID and filters |
| `MachineAdmission.ValidateTag` | api/v1beta2/tags.go:84-117 | The checks of one tag accept exactly lengths, prefix and characters that are allowed |
| `MachineAdmission.ValidateTags` | api/v1beta2/tags.go:77-126 | Accepts exactly if there are at most 50 tags and each is well formed, in any order of ranging |
| `MachineAdmission.ValidateHostAllocationUpdate` | webhooks/awsmachine_webhook.go:539-580 | Accepts exactly if the host rules hold and stray affinity was there before |
| `MachineAdmission.ValidateUpdate` | webhooks/awsmachine_webhook.go:94-173 | Accepts exactly if nothing outside the allow-list changed and secrets, groups, tags and host settings are in order |
| `MachineAdmission.Defaulted` | webhooks/awsmachine_webhook.go:456-476 | Defaulting a machine without Ignition stays within the allow-list and keeps the secret rules |
| `MachineAdmission.HistoryFixed` | webhooks/awsmachine_webhook.go:94-173 | Along every accepted history all fields outside the allow-list stay, every object after the first is admitted, and stray affinity neither appears nor disappears |
| `MachineAdmission.AllowedChangeAccepted` | webhooks/awsmachine_webhook.go:520-580 | From an admitted machine, also one with the tolerated affinity, a change within the allow-list is accepted if and only if it passes the secret, group and tag checks |
| `MachineAdmission.ReconcilerWritesAccepted` | controllers/awsmachine_controller.go:602-604 | At any point of any history of an admitted cloud-init machine, setting the IDs, recording a secret and clearing it are accepted |
| `MachineAdmission.NewDNSSettingsRefused` | webhooks/awsmachine_webhook.go:157-166 | The allow-listed DNS settings cannot be added where there were none |
| `ProviderIds.NewProviderID` | pkg/cloud/scope/providerid.go:58-84 | Parsing succeeds exactly for strings that match the expression; the check after it never fails |
| `ProviderIds.RoundTripIff` | pkg/cloud/scope/providerid.go:136-138 | A generated provider ID gives the instance ID back if and only if that is not empty, has no slash, and nothing breaks the line |
| `ProviderIds.GenerateInjective` | pkg/cloud/scope/providerid.go:136-138 | Instance IDs without slash in their zones have different provider IDs |

## Left out

- AWS and Kubernetes clients, events, conditions, logging, requeue times and feature gates: calls that may fail, or dropped.
- Liveness: nothing says that a pass ever succeeds.
- MachineProtocol takes the elastic IP, EventBridge, security group and metadata-option calls as calls that may fail, without their effect; the several calls after a termination are one.
- ClusterProtocol leaves out failure domains, the endpoint and the waiting for an external load balancer, which end a pass like an error or change nothing that is proved about.
- SecretChunks does not model the retries inside one write; an entry that a write creates while it reports failure is left out.
- LoadBalancerAttachment lets a call fail or not for a whole pass, and leaves out which errors the callers tolerate.
- TagDiff does not model the partial effect of one request, and ranges over one volume at a time.
- SecurityGroups models one instance; how core and additional groups are looked up is a parameter.
- ConvertSetValuesToStringSlice, the conversion of a pool's process settings to a list, is a parameter of SuspendProcesses.
- ClusterConversion and MachineConversion copy fields that both versions hold alike as one value each, and treat the saved copy as faithful; list types, AWSClusterTemplate (which restores only metadata) and the identity types are left out.
- ClusterAdmission takes the verdict on bastion, tags, bucket and the garbage collection annotation as an input, and leaves out warnings; ClusterCreation models the rules for load balancers only.
- MachineAdmission leaves out the creation checks on volumes, keys, markets and reservations, and takes every field that admission only compares in its unstructured form; Ignition machines, whose spec the reconciler may rewrite, are outside the claim about the reconciler's writes.
- EKS, ROSA, Fargate, machine pools beyond their suspended processes, and identity controllers are not part of this model.
