# Homelab operators: verified protocol and planning models

This project models the operators that install bare-metal Servers, claim hosts, run repository-backed
Configurations and plan Kubernetes clusters through a versioned resource API, and proves what they promise.

Every stored record is the log of its versions. A status write names the version it was computed from and takes
effect only while that version is still the newest. A write whose reply is lost stays deliverable afterwards, at any
later time and any number of times. Executors may overlap, crash at any point, lose replies and conflict; remote
stages, SSH contacts and boots are nondeterministic outcomes with a stated effect.

- `ProvisioningRun`, `ProvisioningSystem`, `ProvisioningSafety`, `ProvisioningTheorems`: any number of passes over one
  Server, its runs, its reservation record and its machine. `ProvisioningSystem` gives the control flow of a pass
  (reconcile, the stage functions, failure handling, release) as enabled steps; `ProvisioningSafety` proves one
  inductive invariant over all of them; `ProvisioningTheorems` reads the promises off it.
- `ProvisioningEndings`, `ProvisioningCompletion`, `ProvisioningOrder`, `ProvisioningSessions`: how a pass ends when
  nothing disturbs it (which failures give the Server back and which keep it), that a pass on a machine which boots as
  it is told installs the Server, what directly precedes each stage and each write over all interleavings, and which
  boot sessions a run may name.
- `BootSelection`: the same system restricted to passes that do not overlap (they may still crash and leave late
  writes), and the one-shot boot selection.
- `CasLoop`, `GuardedWrites`: the bounded read-validate-write loops as imperative code against interfering writers,
  and the operators' own loops as instances.
- `OperationClaims`, `ConfigurationExecution`: exclusive Operations on targets, and one execution that claims many
  hosts and unwinds its claims in reverse order.
- `DependencyOrder`, `ConfigurationPlan`, `ConfigurationPass`: depth-first ordering, the recursive plan whose revision
  hashes the revisions of its prerequisites, and a whole pass over the order.
- `HostKeys`: first-contact enrollment of a Server's SSH host key by overlapping passes.
- `Storage`: the partition plan before the erase and its attestation after the reboot.
- `Cidr`, `KubePlan`, `KubeNodes`, `JsonPatch`, `KubeRegistration`: networks and their exact capacity, member
  selection, Node verification and observation, and the guarded label patch.
- `Pigeonhole`, `Wrappers`: counting arguments, and the Option and Result types.

`dafny verify dfyconfig.toml` checks the whole project.

Where the code and its comments differ, the model follows the code. Three such places are worth knowing.

- The comments around `run_commands` speak of local tooling when they turn an `OSError` into a failed command, but
  every `HTTPError` and socket error of the API client is an `OSError` as well. An API error raised between stages
  therefore ends as `CommandFailed`, and every claim is released as Failed rather than held as Uncertain
  (`ConfigurationExecution.FailedStageFreesAll` for all executions, `ApiErrorFreesAll` at one of them).
- A plan with a partition that is neither swap nor mounted passes the check made before the erase
  (`Storage.AcceptedButNeverAttested` is one). Inspection never reports an empty mount point
  (`roles/provision/files/probe.py:100`), so an accepted plan can be attested after the erase if and only if every
  partition other than swap has a mount point (`Storage.AttestableExactly`).
- `verify_nodes` does not look at the value of the role label, nor at a worker's role label at all, so right after a
  successful verification `membership_observation` can still report identity conflicts
  (`KubeNodes.VerifiedButNotReady` is such a cluster). It is ready exactly when every role label also has its exact
  value (`KubeNodes.ObservationAfterVerification`).

## Model

| member | source | states |
|---|---|---|
| ProvisioningRun.LogKeeps | operators/provisioning.py:111-123 | between any two versions of one run the phase rank never falls, a terminal version never changes, the attempt, plan and source stay pinned once claimed, possible erasure is never forgotten, and a finished installation never becomes Blocked |
| ProvisioningRun.SiteLegal | operators/provisioning.py:167-187 | a checkpoint of any call site, computed from a stale view and written on a newer version with the same attempt, plan and phase, is a legal next version |
| ProvisioningSafety.StepInv | operators/provisioning.py:813-904 | every step of every pass, every late write, boot and outside write keeps the protocol invariant |
| ProvisioningSafety.ReachableInv | operators/provisioning.py:813-904 | the invariant holds in every reachable state, for any number of passes and any interleaving |
| ProvisioningTheorems.InstallAtMostOnce | operators/provisioning.py:743-761 | no interleaving with crashes, conflicts and lost replies starts the destructive stage of a run twice |
| ProvisioningTheorems.RunMovesForward | operators/provisioning.py:62-123 | between two moments of one execution a run only moves forward along the chain or to Blocked, its attempt and plan stay, its end is final, and from AwaitingInstalled on it is never Blocked |
| ProvisioningTheorems.PossiblyErasedIsRetained | operators/provisioning.py:862-904 | once the install stage was started, the run stays in an erasing phase or is Blocked with maintenance, for ever, and only a Succeeded run loses the Server's reservation |
| ProvisioningTheorems.SuccessIsAttested | operators/provisioning.py:636-660 | a Succeeded run, and any run the Server names as last successful, was installed exactly once, in an attested boot other than its live boot, and keeps neither maintenance nor armed netboot |
| ProvisioningEndings.FailureBeforeEraseReleases | operators/provisioning.py:882-904 | every undisturbed way through the failure handler, from PreparingBoot or AwaitingLive with netboot not armed, ends with the run Blocked without maintenance and the Server free, everything else unchanged |
| ProvisioningEndings.FailureOfEraseRetains | operators/provisioning.py:882-904 | from Installing it ends Blocked with maintenance, and the Server stays reserved for the run |
| ProvisioningEndings.PendingFailureChangesNothing | operators/provisioning.py:870-881 | management networking that is not ready yet, in any active phase, and any failure in AwaitingInstalled or Verifying change neither the record, the reservation nor the machine |
| ProvisioningEndings.CleanedFailureReleases | operators/provisioning.py:883-904 | with netboot armed and the machine still in the source session, the selection its session arms is removed, the run ends Blocked, unarmed and without maintenance, and the Server is free |
| ProvisioningEndings.UncleanedFailureRetains | operators/provisioning.py:883-904 | with netboot armed and the machine in any other session, the run ends Blocked with maintenance, still armed, and keeps the Server |
| ProvisioningEndings.CleanupErrorRetains | operators/provisioning.py:883-904 | an exception at any point of the cleanup ends Blocked with maintenance and keeps the Server |
| ProvisioningEndings.SelectedAgainRetains | operators/provisioning.py:883-904 | a GRUB entry pending when the clearing stage ends keeps the Server |
| ProvisioningEndings.FoundEraseIsBlocked | operators/provisioning.py:829-834 | a pass that finds its run Installing blocks it with maintenance and touches nothing else |
| ProvisioningEndings.FinishedRunIsReleased | operators/provisioning.py:815-823 | a pass that finds its run Succeeded, or Blocked without maintenance, gives the Server back, and records provisioned and last successful exactly for success |
| ProvisioningEndings.ReleasesExactly | operators/provisioning.py:62-84 | a run lets its Server go if and only if its newest record is Succeeded or Blocked, without maintenance and without armed netboot |
| ProvisioningEndings.FailedInstallRetains | operators/provisioning.py:758-759 | an exception of the destructive stage can reach the handler, and every undisturbed ending then is Blocked with maintenance |
| ProvisioningEndings.FaultsReachHandler | operators/provisioning.py:813-904 | the program points whose exceptions reach the handler, if and only if |
| ProvisioningEndings.LastConflict | operators/provisioning.py:167-187 | the fifth conflict leaves every version as it was; it ends the pass at a failure note, tries first contact again, and is a failure anywhere else |
| ProvisioningEndings.UnauthorisedEraseReleases | operators/provisioning.py:756-757 | losing the write that authorises the erase gives the Server back |
| ProvisioningEndings.UnrecordedInstallRetains | operators/provisioning.py:758-760 | losing the write that records the finished installation keeps it |
| ProvisioningEndings.FailuresEnd | operators/provisioning.py:862-904 | from every record and every machine the handler does have an undisturbed ending |
| ProvisioningCompletion.PendingRunInstalls | operators/provisioning.py:813-860 | from any installed or live session, a pass that finds its run Pending has a way, with the machine booting as told, to the run Succeeded with every field given, the Server free and recorded as provisioned by it, and the machine two sessions on |
| ProvisioningCompletion.InterruptedRunInstalls | operators/provisioning.py:837-860 | a later pass of the same revision has such a way from PreparingBoot, AwaitingLive, AwaitingInstalled and Verifying, under the pinned plan, source and live session |
| ProvisioningCompletion.RefusedContactInstalls | operators/provisioning.py:547-571 | a first-contact write refused for the last time still leaves a way to success |
| ProvisioningOrder.EveryActionIsPrepared | operators/provisioning.py:715-810 | over every interleaving each stage and each phase write of a pass directly follows its own actions that make it safe: arming its record, reboot the arming stage, the erase its Installing write and that its enrollment, success the final stage and another look at the installed session |
| ProvisioningOrder.LaunchesAreCurrent | operators/provisioning.py:111-164 | whenever a pass comes to a stage, the newest record has the attempt, plan and phase the pass acts on |
| ProvisioningOrder.MovesOnCurrentRecord | operators/provisioning.py:111-187 | a pass resumes, waits for a session, delivers keys, launches and writes only after a fresh read that shows its attempt, plan and phase, and a write names that read as its base |
| ProvisioningOrder.ErasesInRecordedSession | operators/provisioning.py:743-760 | the install stage acts only in a live session that the newest record names and that is not the source, and the kernel is loaded only in the live source session |
| ProvisioningOrder.StagesUsePinnedRevision | operators/provisioning.py:838-840 | no stage but a cleanup runs for an attempt that another code revision pinned |
| ProvisioningOrder.ClaimsPinOwnRevision | operators/provisioning.py:663-712 | a claim pins the revision of the operator that makes it |
| ProvisioningSessions.SessionsAreWhatTheySay | operators/provisioning.py:524-580 | over every execution a run's live boot is a session the machine was live in, and an attested boot is not |
| ProvisioningSessions.MovesInItsSession | operators/provisioning.py:715-790 | in which session of the machine a pass arms, enrolls, pins a contact key, starts the final reboot and cleans up |
| ProvisioningTheorems.OneOpenRun | operators/provisioning.py:62-84 | a Server never has two open runs, and an open run holds its reservation |
| BootSelection.PendingIsRecorded | operators/provisioning.py:715-740 | without overlapping passes a selection is pending only while its run records netboot as armed; never after Blocked without maintenance or Succeeded |
| CasLoop.GuardedUpdate | operators/server_operation.py:15-30 | whatever others write in between, the loop is one guarded update computed from the version just before it, or no write at all; it gives up after exactly the given number of conflict replies, one fresh read before each, and otherwise stops at the first reply that is not a conflict or at the first version that the guard refuses |
| GuardedWrites.Attempt.Checkpoint | operators/provisioning.py:167-187 | the local view moves only together with the one version this call wrote, which continues the attempt, plan and phase of the view; an unanswered write created at most one such version; it gives up after five conflicts |
| GuardedWrites.CheckpointKeepsHistory | operators/provisioning.py:167-187 | appending that version keeps every well-formed history well formed, committed erasure committed and a terminal record unchanged |
| GuardedWrites.ReleaseReservation | operators/provisioning.py:69-84 | the reservation is cleared, and success recorded, only from a version that still named this run, the unanswered case included; a refusal writes nothing |
| GuardedWrites.CompleteOperation | operators/server_operation.py:15-30 | an outcome is written only on a held phase, at most once, even when the reply is lost |
| GuardedWrites.RecordInstalledKey | operators/ssh_host_keys.py:48-60 | the final observation installs the managed key on a version with unchanged trust, or writes nothing; an unanswered write did one of the two |
| GuardedWrites.PublishTargetStatus | operators/configurations.py:546-563 | observations reach only the lifetime and generation they were made for, and change nothing but the status, the unanswered case included |
| OperationClaims.StepInv | operators/server_operation.py:54-97 | creation, entry, completion with retries, lost replies, crashes and late writes keep targets and held Operations consistent |
| OperationClaims.BodyOwnsItsTarget | operators/server_operation.py:54-85 | a reservation body runs only while its own running Operation is the target's reference, and alone on that target |
| OperationClaims.OneHeldOperation | operators/server_operation.py:54-97 | at most one Operation per target is Running or Uncertain |
| OperationClaims.OutcomeIsFinal | operators/server_operation.py:15-30 | a Succeeded or Failed outcome is never overwritten by any later activity |
| OperationClaims.InterruptedIsHeld | operators/server_operation.py:86-95 | after a body, or its entry, is interrupted, its Operation is Running or Uncertain and owns the target in every later state |
| OperationClaims.UndisturbedExit | operators/server_operation.py:86-97 | leaving, reading and writing ends in Uncertain with the target owned for an interruption, in Failed with it free for a refusal, and in Succeeded with it free for a return |
| OperationClaims.UndisturbedEntry | operators/server_operation.py:60-85 | a free target is claimed and entered by a running Operation of the client's own |
| OperationClaims.CompletionRetries | operators/server_operation.py:15-30 | a completion survives four refused writes and leaves the Operation as it was after the fifth |
| OperationClaims.AbandonedIsRetained | operators/server_operation.py:86-94 | a held Operation nobody works on any more keeps its target, whatever the operators do later |
| OperationClaims.ReleasedMeansKnown | operators/server_operation.py:15-30 | a target changes hands only after its Operation ended with a known outcome |
| ConfigurationExecution.RunCommands | operators/configurations.py:481-512 | the commands end at the first stage that does not pass; the phase is Uncertain exactly for codes 4, 6 and negative ones, timeouts and unclassified exceptions, and the reasons CommandFailed and RemoteWorkUncertain are each given exactly where they belong |
| ConfigurationExecution.Executor.Execute | operators/configurations.py:566-603 | which hosts are claimed, how the body ends, what every claim and the refused host record, which fault leaves the execution, and that no other Operation appears or changes |
| ConfigurationExecution.HostsEndAlike | operators/configurations.py:566-603 | when no completion write fails, all acquired Operations end with the same outcome and stay held exactly when it is Uncertain |
| ConfigurationExecution.UncertainStageHoldsAll | operators/configurations.py:481-512 | a timeout, an exit code 4, 6 or negative, or an unclassified exception in a stage leaves every claimed Operation Uncertain and every host held |
| ConfigurationExecution.FailedStageFreesAll | operators/configurations.py:587-595 | a stage that only failed leaves every Operation Failed and every host free, or ends as publishing its observations does |
| ConfigurationExecution.PassedStagesEndAsFinished | operators/configurations.py:596-603 | when all stages pass, every Operation is Succeeded and every host free if the final checks raise nothing; a classified refusal there makes them Failed and free, an uncertain one or any other exception Uncertain and held |
| ConfigurationExecution.RecheckEndsAll | operators/configurations.py:566-586 | the same by name for a fault of the check before the commands |
| ConfigurationExecution.AcquisitionEnds | operators/server_operation.py:54-97 | the same by name for a fault while claiming a later host |
| ConfigurationExecution.ClaimedUpToFirstRefusal | operators/configurations.py:566-580 | the claimed hosts are exactly those before the first one that cannot be acquired |
| ConfigurationExecution.RefusedStageFreesAll | operators/configurations.py:481-512 | a stage refused for another classified reason leaves every Operation Failed and every host free |
| ConfigurationExecution.ApiErrorFreesAll | operators/configurations.py:509-512 | an API error after the first guard leaves every Operation Failed and every host free |
| ConfigurationExecution.BusyFreesEarlierHosts | operators/server_operation.py:66-91 | a refusal while claiming host k fails the claims taken before it, changes no other Operation, and leaves every target owned as before but for a refused host that still holds its own Operation |
| ConfigurationExecution.BusyChangesNoOwner | operators/server_operation.py:60-77 | a busy target creates no Operation, and every target is owned exactly as before |
| ConfigurationExecution.FailedCompletionHoldsOuterHosts | operators/server_operation.py:79-97 | a completion that raises leaves every outer claim held |
| DependencyOrder.Walk.Visit | operators/configurations.py:108-123 | one visit appends its component dependencies first and keeps the walk valid, or ends on a name that lies on a cycle |
| DependencyOrder.Order | operators/configurations.py:101-125 | succeeds if and only if the in-set graph is acyclic, with each name once and after its dependencies; otherwise the reported name lies on a real cycle |
| DependencyOrder.OrderedIsAcyclic | operators/configurations.py:101-125 | a dependencies-first order exists only for an acyclic graph |
| ConfigurationPlan.PlanConfiguration | operators/configurations.py:251-289 | the step-by-step plan terminates on every finite store, cyclic ones included, and computes the recursive definition the lemmas are about |
| ConfigurationPlan.PrerequisiteInputs | operators/configurations.py:197-217 | the accumulating loop stops at the first fault and otherwise maps each prerequisite's uid to its planned revision |
| ConfigurationPlan.PlanExact | operators/configurations.py:251-289 | planning succeeds if and only if the Configuration resolves, everything it reaches is Ready with the hash of its present inputs and recorded prerequisites, and no cycle or stacked name is reached; the revision does not depend on the stack |
| ConfigurationPlan.PrerequisitesMatchTheirPlans | operators/configurations.py:197-217 | every reachable prerequisite is Ready for its generation with exactly the revision that planning it alone computes |
| ConfigurationPlan.PrerequisitesAreReady | operators/configurations.py:197-217 | field by field: after a successful plan every reachable prerequisite has status ready, its generation observed, and as input revision the one that planning it alone gives |
| ConfigurationPlan.PinsAreHonoured | operators/configurations.py:79-90 | after a successful plan every referenced Configuration exists, is not terminating and has the pinned uid |
| ConfigurationPlan.PrerequisiteRefuses | operators/configurations.py:197-217 | with the earlier prerequisites in order, the first one that plans but is not ready, not observed or at another revision makes planning wait, and one that fails to plan passes on its reason, or makes it wait for the waiting reasons |
| ConfigurationPlan.OwnRefusals | operators/configurations.py:251-263 | the refusals of the Configuration itself: a cycle, then suspension or deletion, then what does not resolve |
| ConfigurationPlan.UnfetchableRefuses | operators/configurations.py:79-90 | the first reference that is missing, or present with another uid or terminating, refuses with the reason of its kind |
| ConfigurationPlan.CycleIsReal | operators/configurations.py:251-254 | a DependencyCycle refusal means some Configuration reached does reach itself |
| ConfigurationPlan.RevisionsAreFaithful | operators/configurations.py:264-289 | two successful plans have equal revisions if and only if the inputs, lifetimes and generations agree over the whole prerequisite closure |
| ConfigurationPlan.FingerprintExact | operators/configurations.py:264-282 | equal fingerprinted inputs mean the same spec, commit, inventory, hosts, cluster, member inputs and observed references, and conversely; only pulses and the group's and Servers' own specs stay outside |
| ConfigurationPlan.PulsesLeavePlans | operators/configurations.py:151-159 | heartbeats and claims change neither a revision nor a refusal |
| ConfigurationPlan.ReportIsStable | operators/configurations.py:292-326 | reporting a planned revision as Ready verifies the Configuration for its dependents if and only if it has a generation, and planning it again gives the same revision |
| ConfigurationPass.Run | operators/configurations.py:619-651 | whatever happens to the other captured Configurations, each one whose own inputs resolve, whose command works and whose prerequisites are settled outside or good and earlier ends Ready with the revision its plan computes in the final state; only statuses of captured Configurations change |
| ConfigurationPass.OrderSupportsAll | operators/configurations.py:622-633 | in a dependency order that is the case for all captured Configurations as soon as each resolves and works and the prerequisites outside are settled |
| HostKeys.StepInv | operators/ssh_host_keys.py:182-252 | every step of every enrolling pass and every late write keeps the trust invariant |
| HostKeys.PinWrittenOnce | operators/ssh_host_keys.py:63-92 | over all interleavings the pin is written at most once, never once anything was pinned or installed, and cleared only by the write that records the installed managed key |
| HostKeys.InstalledIsFinal | operators/ssh_host_keys.py:204-206 | a recorded installed identity never changes again |
| HostKeys.PrivateKeyTrust | operators/ssh_host_keys.py:207-221 | a pass at the private key trusts the managed key and at most the one pin ever persisted; on an established Server only the key that was installed |
| HostKeys.PrivateKeyPreconditions | operators/ssh_host_keys.py:182-206 | before the private key is read there is no maintenance, a bundle, a ready key that hashes to its fingerprint, and a pin or an installed key |
| HostKeys.RefusedAtStart | operators/ssh_host_keys.py:182-206 | the conditions that end a pass before it contacts the host, if and only if |
| HostKeys.WritesOnUnchangedServer | operators/ssh_host_keys.py:19-92 | a pin or an installed key is only written on a version that agrees field by field with the one verified, and is neither terminating nor under maintenance |
| HostKeys.KeysMoveOnUnchangedServer | operators/ssh_host_keys.py:207-235 | the private key is read, and sent to the host, only while the newest version agrees in the same way |
| HostKeys.EnrollmentCompletes | operators/ssh_host_keys.py:182-252 | an undisturbed first contact appends exactly two versions: the pinned key, then the managed key in its place |
| HostKeys.ObservationRetries | operators/ssh_host_keys.py:48-60 | the final observation survives four conflicts, and after the fifth the pass ends with nothing written |
| Storage.ValidateStorage | operators/provisioning.py:237-265 | accepted if and only if the extents tile from 1 MiB and leave the last MiB, numbers and mount points do not clash, and root and EFI occur once each |
| Storage.VerifyInstalledStorage | operators/provisioning.py:616-633 | accepted if and only if the observed set has the planned size, unique numbers, and a matching partition for every planned one |
| Storage.AttestedPartition | operators/provisioning.py:616-633 | field by field, what an attested disk shows for each planned entry: offset, size, filesystem, identities, and active swap or the mount point |
| Storage.NumbersCoincide | operators/provisioning.py:616-633 | planned and observed partitions correspond one to one |
| Storage.AttestedDiskIsTiled | operators/provisioning.py:237-265 | on an attested disk the observed partitions are disjoint, cover exactly the bytes from 1 MiB to the last planned end, and leave the disk's last MiB free |
| Storage.AttestableExactly | operators/provisioning.py:616-633 | an accepted plan can be attested if and only if every partition other than swap has a mount point |
| Storage.AcceptedButNeverAttested | operators/provisioning.py:237-265 | a plan with an unmounted data partition that is accepted before the erase and never attested after it |
| Cidr.ParsedIsValid | filter_plugins/kube_plan.py:35-40 | an interface network is the canonical one of its prefix around the address, within the address space; strict parsing accepts exactly the addresses on its boundary |
| Cidr.NestedOrDisjoint | filter_plugins/kube_plan.py:105-107 | two canonical networks overlap if and only if the smaller is a subnet of the larger |
| Cidr.CapacityExact | filter_plugins/kube_plan.py:138-140 | for n members the capacity check accepts a network if and only if n pairwise disjoint /24 subnets fit inside it |
| KubePlan.SelectMembers | filter_plugins/kube_plan.py:57-87 | accepted if and only if all labelled Servers are valid, node names are unique and exactly one is the control plane; the members come sorted by Server name |
| KubePlan.SortedByName | filter_plugins/kube_plan.py:87-87 | sorting keeps every member as often as it was selected, and puts the Server names in order |
| KubePlan.PrecedesExactly | filter_plugins/kube_plan.py:87-87 | the order of the names: a prefix, or the smaller character at the first difference |
| KubePlan.CandidatesExactly | filter_plugins/kube_plan.py:57-87 | exactly the Servers labelled with the cluster are selected, each as often as it was captured |
| KubePlan.MemberOf | filter_plugins/kube_plan.py:57-87 | which selected Server is a member and with which fields, if and only if |
| KubePlan.SettingsExactly | filter_plugins/kube_plan.py:90-117 | settings are accepted if and only if the releases, the endpoint and the provider are, and the canonical pod and Service networks share no address |
| KubePlan.SupportedFrom31 | filter_plugins/kube_plan.py:90-117 | release 1.x.y, in decimal notation, is supported if and only if x is at least 31 |
| KubePlan.EndpointPorts | filter_plugins/kube_plan.py:90-117 | a host with an explicit port is an endpoint if and only if the port is between 1 and 65535 |
| KubePlan.AddressOkExactly | filter_plugins/kube_plan.py:153-183 | a reported address is acceptable if and only if its network holds no pod and no Service address, or lies in the pod network on a managed interface |
| KubePlan.SplitExact | filter_plugins/kube_plan.py:28-32 | splitting on a separator loses nothing and leaves none in a part, on which names, releases and endpoints are checked |
| KubePlan.ClusterPlan | filter_plugins/kube_plan.py:90-150 | accepted if and only if releases, provider, endpoint and networks are, the selection is, and one disjoint /24 per member fits; the plan's pod and Service networks share no address and its control plane is the only one |
| KubePlan.ValidateHostNetwork | filter_plugins/kube_plan.py:153-183 | accepted if and only if interfaces are reported and every connected network is outside the desired ones or managed by the installed CNI |
| KubePlan.HostAddressesStayOutside | filter_plugins/kube_plan.py:153-183 | on an accepted host no connected address is a Service address, nor a pod address unless the managed interfaces carry it |
| KubeNodes.VerifyNodes | filter_plugins/kube_plan.py:359-419 | accepted if and only if the Nodes are as many as the members, each valid for its member, with pod subnets inside the pod network and pairwise apart |
| KubeNodes.NodesMatchMembers | filter_plugins/kube_plan.py:359-389 | verified Nodes are the members of an accepted plan, one to one |
| KubeNodes.VerifiedNode | filter_plugins/kube_plan.py:392-419 | field by field, what verification has seen on each member's Node: identity labels, the control-plane role label exactly on the control plane, versions, readiness and a subnet of the pod network |
| KubeNodes.PodAddressesSeparate | filter_plugins/kube_plan.py:359-389 | an address belongs to the pods of at most one verified Node, and then to the pod and not to the Service network |
| KubeNodes.NodeObservations | filter_plugins/kube_plan.py:422-464 | the lookup by member name is total after verification; one observation per member, of its own Node; it reports exactly the planned versions, and is refused only without exactly one nonempty InternalIP, a uid, an OS image or a kernel version |
| KubeNodes.InternalExactly | filter_plugins/kube_plan.py:422-464 | the reported address is the one entry of kind InternalIP, if and only if there is exactly one |
| KubeNodes.MembershipObservation | filter_plugins/kube_plan.py:567-606 | which names are missing, unexpected, not ready or conflicting, and refused exactly on a duplicate Node name |
| KubeNodes.ObservationAfterVerification | filter_plugins/kube_plan.py:567-606 | after a successful verification nothing is missing, unexpected or not ready, and ready holds if and only if every member's role label has its exact value |
| KubeNodes.VerifiedButNotReady | filter_plugins/kube_plan.py:392-419 | an accepted plan with verified Nodes, a worker without its role label among them, whose membership is not ready |
| JsonPatch.EscapeRoundTrip | filter_plugins/kube_plan.py:559-561 | escaping is undone by the evaluation order of section 4 of RFC 6901 for every string, and yields a single token |
| JsonPatch.PointerRoundTrip | filter_plugins/kube_plan.py:559-561 | a pointer evaluates to exactly the tokens it was built from |
| JsonPatch.PointersDistinct | filter_plugins/kube_plan.py:559-561 | distinct token sequences have distinct pointers |
| KubeRegistration.ManagedLabelPatch | filter_plugins/kube_plan.py:534-564 | the accumulating generator emits the guards, the additions in order and the removal |
| KubeRegistration.PatchEffect | filter_plugins/kube_plan.py:534-564 | applied to any stored Node under sections 4.1, 4.2 and 4.6 of RFC 6902 the patch succeeds if and only if the guarded parts are unchanged, and then only the labels differ; otherwise it alters nothing |
| KubeRegistration.NewLabelsExact | filter_plugins/kube_plan.py:534-564 | key by key, the labels are the old ones without the opposite role and with the desired values |
| KubeRegistration.LabelsChangedExactly | filter_plugins/kube_plan.py:489-531 | a repair is reported as a change if and only if its patch would change the Node that was read |
| KubeRegistration.RepairedLabels | filter_plugins/kube_plan.py:489-564 | by literal key: the repaired Node names its Server, its cluster and its role, not the other role, and keeps every other label |
| KubeRegistration.RepairsOnlyItsOwn | filter_plugins/kube_plan.py:489-531 | a repair is planned if and only if uid, role, name and address are the member's, the Node can be guarded, and its identity labels are free or its own |
| KubeRegistration.MissingNodeIsRegistered | filter_plugins/kube_plan.py:489-531 | an absent Node asks for registration only, and a host that is not the member is refused |
| KubeRegistration.RegistrationConverges | filter_plugins/kube_plan.py:489-531 | applying the planned patch to the Node that was read succeeds; planning again reports unchanged labels and a patch that leaves the document as it is |

## Left out

- The API server: record versions, the compare-and-swap on uid and version, the atomic claim on creation and the release with a terminal phase are assumed; `operators/tests/test_operators.py:74-106` states the same contract.
- Administrators who reset Blocked runs, Uncertain Operations or a pin, and API writers other than the operators that change a run's phase or a Server's trust fields.
- Preflight passes, which write nothing, and the pinned Server inputs that `current` compares; a pass may fail at any such check.
- The contents of SSH, Ansible, git, file and HTTP calls: each is an outcome with a stated effect on the machine or the claim. These are outcomes of the pass that started them.
- Cross-Server exclusivity of provisioning, which the code checks without a compare-and-swap.
- Boot selection cleanup under overlapping passes: netboot arming is not part of the checkpoint validation, so it is stated for passes that do not overlap.
- BootSelection.PendingIsRecorded: does not cover a stage task that keeps running on the host after its pass has died, nor a firmware or PXE boot that bypasses the disk's GRUB and leaves its one-shot entry in place; every boot is taken to consume the pending selection.
- JSON text, hashing, dates, message strings and digits outside ASCII: digests and fingerprints are injective constructors, and malformed documents are a refusal.
- ConfigurationPlan.PlanConfiguration: resolving the target, the capture group, the Servers and the Git input is one outcome per spec, and a plan reads one state of the API; `execute` plans again before and after the commands.
- ConfigurationPass.Run: commands are taken to leave the inputs of other Configurations alone, and a prerequisite outside the captured set that depends on a captured one is not counted as settled; the exit status of the pass is not modelled.
- DependencyOrder.Order: the roots are visited in any order that lists every name, of which the sorted one is an instance.
- KubeNodes.MembershipObservation: the names of each report are sets, without the sorted order of the lists.
- HostKeys.PrivateKeyTrust: one Server lifetime; the failure report of a pass touches no trust field and counts as an outside write.
- Flannel manifests, binary manifests, probe objects, playbooks, roles and the remaining runner modules: fixed data, in-place document edits and thin wrappers.
