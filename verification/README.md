# Verification model of the sandbox lab operator

The operator runs three reconcilers against the Kubernetes API server. This project models them
and proves what they keep, in every interleaving of their API calls, with any call failing and
with users, the kubelet, the namespace controller and the clock acting in between.

**ClusterLab and InstanceLab** are one protocol. `LabStore` is the API server: objects,
finalizers, owner references, namespaces that are active, terminating or absent, the ClusterLab
work queue and the clock; every change is one of seven writes. `ClusterLabController` and
`InstanceLabController` are the reconcilers one API call at a time; `LabSystem` puts them, the
users and Kubernetes together as a machine whose steps are total, so every sequence of actions is
a run. Fields called history (`home`, `placedBy`, `placedFor`) are read by no step. On this machine
stand `NoResidue`, `ReadinessGate`, `Isolation`, `Cleanup`, `Drain`, `Deadlines`, `Counters`,
`Coherence`, `QuotaHistory`, `ClusterSettling` and `InstanceSettling`; `InstanceQueue`,
`InstanceWakes` and `DeletionWakes` say that nothing that waits is forgotten. `ProvisionPass`,
`GatePass`, `PlacementPass` and `CleanupPass` say for one reconcile, with any calls failing, exactly
what it does and reports.

**NotebookLab** is a machine of its own, as the program does not register it next to the other
two: `NotebookStore`, `NotebookController`, `NotebookSystem`, with `NotebookDeadlines`,
`NotebookHealing`, `NotebookPasses`, `NotebookPurge` and, in the user's terms, `NotebookTells`.

**As written.** The reconcilers change a copy of the object in place and make calls in sequence.
`ClusterLabReconciler`, `InstanceLabReconciler`, `NotebookReconciler` do the same in imperative
Dafny and are proved against the machines; `Passes` and `NotebookSystem.PassIsRun` show that an
uninterrupted reconcile is a run, so that what holds in every run holds after it. `PodBuilder`
builds the Pod template on the heap, and `PodServes` says what is right about it;
`Conditions.ConditionList` updates conditions in place; `Routing` runs the append loops behind ports,
Service, Ingress and endpoints. `Naming` and `Durations` hold the derived names and the 64-bit
arithmetic.

**Hypotheses.** Some results need something that the code does not see to: no ClusterLab is created
whose target namespace is still in use (`ReadinessGate.FreshTarget`); bulk deletes go through and
references are not edited (`Cleanup.Orderly`); the InstanceLab list succeeds
(`Counters.ListSucceeds`); both clock readings of a pass fall before the expiry
(`Deadlines.Punctual`); the token of a notebook is read (`NotebookHealing.TokensRead`).
`Counterexamples` and `NotebookCounterexamples` have, for each, a run or a family of states in which
the result fails without it. Both halves of `FreshTarget` have one: the name is used again while a
pass holds the old target, and a second ClusterLab shares the target. Where one pass decides, the
exact condition is proved: `GatePass.GateOpensExactly`, `CleanupPass.OrphansExactly`,
`Counterexamples.CountersNeedTheList`, `Counterexamples.ExpiryNeedsBothReadings`,
`NotebookCounterexamples.UrlNeedsTheToken`, and for the notebook's 64-bit thresholds
`NotebookCounterexamples.PurgeOnTimeExactly` and its two neighbours.

Where documentation and code disagree the code is modelled: an unknown network type isolates,
though the log line speaks of internal isolation (internal/controller/clusterlab_controller.go:321-323);
instance and lab name of a host are joined by a hyphen, not by a dot as in docs/ARCHITECTURE.md:162;
the InstanceLab controller watches nothing but InstanceLabs, though docs/ARCHITECTURE.md:254 calls it
self-healing; the owner reference is set before the parent is known to be running, not after, as
docs/ARCHITECTURE.md describes it.

`dafny verify dfyconfig.toml` checks the whole project. In the table, rows that begin with a note in
parentheses are steps or special cases of the result they name; the others stand for themselves.

## Model

| member | source | states |
|---|---|---|
| Conditions.SetLookup | internal/utils/helpers.go:108-116 | a report is found under its own type and changes nothing a reader finds under another |
| Conditions.SetKeepsUnique | internal/utils/helpers.go:108-116 | condition types stay unique and in order; a report appends at most one, only if its type is new |
| Conditions.TimestampMovesOnFlip | internal/utils/helpers.go:108-116 | lastTransitionTime moves exactly when the status flips; reason and message are always those reported |
| Conditions.SetIdempotent | internal/utils/helpers.go:108-116 | the same report at any later time changes nothing |
| Conditions.ConditionList.SetCondition | internal/utils/helpers.go:108-116 | the in-place update through a pointer leaves the list that the function `Set` gives for the old one |
| Naming.SanitizedFits | internal/utils/helpers.go:41-57 | the result fits its limit exactly if the name did or the limit is at least 7 |
| Naming.KeptIsLongest | internal/utils/helpers.go:49-54 | what is kept of a name too long: its first maxLen - 8 characters without the hyphens and dots at their end |
| Naming.SanitizeIdempotent | internal/utils/helpers.go:41-57 | sanitizing twice is sanitizing once, for every limit of at least 7; below that exactly if the hash maps its value to itself |
| Naming.SanitizedIsLabel | internal/utils/helpers.go:41-57 | for limits 9 to 63 the result is a DNS label exactly if the name, or the part of it that is kept, allows it |
| Naming.LabelsStayLabels | internal/utils/helpers.go:39-57 | labels of any length become DNS labels (section 2.1 of RFC 1123, section 2.3.4 of RFC 1035) |
| Naming.NoNewDoubleHyphen | internal/utils/helpers.go:54-56 | no double hyphen is introduced |
| Naming.SanitizeCollides | internal/utils/helpers.go:41-57 | two names get one result exactly if they are equal, share kept part and hash, or one spells out the other's result |
| Naming.TargetIsLabel | internal/utils/helpers.go:59-64 | a target namespace is a DNS label exactly if the part of the ClusterLab name that shows has no dot |
| Naming.TargetCollides | internal/utils/helpers.go:59-64 | exactly which ClusterLab names share a target namespace |
| Naming.ChildCollides | internal/controller/instancelab_controller.go:222-222 | exactly which InstanceLab names share a child object of a kind: only long ones that agree in kept part and hash; no name spells out another's shortened one |
| Naming.HostsAgree | internal/utils/helpers.go:66-76 | two hosts are equal exactly if the sanitized subdomains are |
| Naming.HostCollides | internal/utils/helpers.go:66-76 | for names of any length and case, exactly which instances share a host: their names regroup at a hyphen, share kept part and hash, or one spells out the other's shortened form |
| Naming.HostCollision | internal/utils/helpers.go:72-75 | (a case of HostCollides) for all names, instance a-b of lab c and instance a of lab b-c get the same host |
| Naming.ShortNames | internal/utils/helpers.go:59-76 | short names are derived by what is put around them: lab-, the four suffixes of children, and the default domain |
| ClusterLabReconciler.Reconcile | internal/controller/clusterlab_controller.go:73-155 | the reconcile as written leaves store, verdict and number of calls that the call-by-call machine gives, whichever calls fail |
| ClusterLabReconciler.ReconcileFinalizer | internal/controller/clusterlab_controller.go:161-195 | deletes the recorded or derived namespace, waits until it is not found, then removes the finalizer |
| ClusterLabReconciler.ReconcileTtl | internal/controller/clusterlab_controller.go:197-217 | expiry is creation plus TTL; expired from that instant on; an absent TTL clears the expiry |
| ClusterLabReconciler.ReconcileLive | internal/controller/clusterlab_controller.go:104-154 | TTL, then provisioning, then the requeue delay |
| ClusterLabReconciler.Provision | internal/controller/clusterlab_controller.go:125-154 | namespace, quota, policy and status in this order; the first refusal ends the pass with a failed status |
| ClusterLabReconciler.UpdateClusterLabStatus | internal/controller/clusterlab_controller.go:339-384 | phase, target, counters and four conditions of a full pass |
| ClusterLabReconciler.UpdateStatusFailed | internal/controller/clusterlab_controller.go:386-390 | failed phase and Ready=False are written if possible; the pass is an error either way |
| ClusterLabReconciler.CountMembers | internal/controller/clusterlab_controller.go:363-376 | over any listing of the namespace, the loop's counters are the sizes of the sets of referencing and of running InstanceLabs |
| InstanceLabReconciler.Reconcile | internal/controller/instancelab_controller.go:69-157 | the reconcile as written leaves what the call-by-call machine gives, whichever calls fail |
| InstanceLabReconciler.ReconcileFinalizer | internal/controller/instancelab_controller.go:183-214 | cleanup in the parent's namespace, or the derived one if the parent cannot be read, then the finalizer goes |
| InstanceLabReconciler.DeleteWorkloads | internal/controller/instancelab_controller.go:200-205 | four bulk deletes by label whose results are ignored |
| InstanceLabReconciler.ReconcileLive | internal/controller/instancelab_controller.go:100-157 | parent, owner reference, gate |
| InstanceLabReconciler.AwaitParent | internal/controller/instancelab_controller.go:106-112 | phase Pending and another look in five seconds, even if the status write fails |
| InstanceLabReconciler.PlaceChildren | internal/controller/instancelab_controller.go:119-149 | PVC, Pod, Service, Ingress in turn, each if the spec asks for it; the first refusal ends the pass |
| InstanceLabReconciler.UpdateInstanceLabStatus | internal/controller/instancelab_controller.go:601-646 | phase and conditions read off the Pod |
| InstanceLabReconciler.UpdateStatusFailed | internal/controller/instancelab_controller.go:648-652 | failed phase with the step's reason |
| NotebookReconciler.Reconcile | internal/controller/notebooklab_controller.go:44-107 | the reconcile as written leaves what the call-by-call machine gives, whichever calls fail |
| NotebookReconciler.ReconcileLifecycle | internal/controller/notebooklab_controller.go:109-206 | the three policies with a delay threaded through them, pauses patched on the way |
| NotebookReconciler.Purge | internal/controller/notebooklab_controller.go:133-146 | PVC first, if found and as far as it can be deleted, then the notebook, whose failure counts |
| NotebookReconciler.ReconcileChildren | internal/controller/notebooklab_controller.go:71-106 | children in the order of the program; an error at any of them is recorded and returned |
| NotebookReconciler.CreateIfMissing | internal/controller/notebooklab_controller.go:219-265 | a child is created exactly if it is not found |
| NotebookReconciler.ReconcileJupyterDeployment | internal/controller/notebooklab_controller.go:380-506 | secret first, then the Deployment is created or patched to the build of the spec |
| NotebookReconciler.ReconcileNetworking | internal/controller/notebooklab_controller.go:564-654 | Service, then Ingress |
| NotebookReconciler.ReconcileNotebookSecret | internal/controller/notebooklab_controller.go:267-298 | the stored token, or the default one put into a new Secret |
| NotebookReconciler.UpdateNotebookStatus | internal/controller/notebooklab_controller.go:656-694 | phase of spec and Deployment, PVC name and access URL, with the default token if the read fails |
| NotebookReconciler.UpdateStatusError | internal/controller/notebooklab_controller.go:696-704 | phase Failed is written if possible; the pass is an error either way |
| Passes.ReconcileIsRun | internal/controller/clusterlab_controller.go:73-155 | an uninterrupted reconcile from the queue on is a run of the machine, of at most eleven steps |
| Passes.InstReconcileIsRun | internal/controller/instancelab_controller.go:69-157 | the same for an InstanceLab |
| Passes.NoResidueAfterReconcile | internal/controller/clusterlab_controller.go:73-155 | so, after any run and a reconcile with any calls failing, a namespace has its ClusterLab stored with finalizer |
| Passes.GateAfterReconcile | internal/controller/instancelab_controller.go:69-157 | and no InstanceLab reconcile leaves a workload in an active namespace without quota and policy |
| NotebookSystem.PassIsRun | internal/controller/notebooklab_controller.go:44-107 | the same for a notebook |
| NoResidue.DoKeeps | internal/controller/clusterlab_controller.go:161-195 | every step keeps: a namespace has its ClusterLab, stored with finalizer; recorded targets are empty or derived |
| NoResidue.ClusterKeeps | internal/controller/clusterlab_controller.go:73-155 | (step of NoResidue) so does every call of a ClusterLab pass, whatever happened since its last one |
| NoResidue.NoResidue | internal/controller/clusterlab_controller.go:89-102 | in every run a target namespace exists only while a ClusterLab of that target is stored with its finalizer |
| Isolation.NoWorkloadOutlivesItsLab | internal/controller/clusterlab_controller.go:161-195 | in every run a workload is there only while the ClusterLab it was placed for is stored with its finalizer |
| ReadinessGate.DoKeepsGate | internal/controller/instancelab_controller.go:101-117 | every step keeps the gate invariant, up to the last call of a pass that read the parent's phase |
| ReadinessGate.Gate | internal/controller/instancelab_controller.go:165-181 | in every run no workload is in an active target namespace that lacks its quota or its network policy |
| ReadinessGate.RunningMeansReady | internal/controller/clusterlab_controller.go:339-341 | a live ClusterLab in phase Running has its namespace, active, with quota and policy |
| ProvisionPass.ProvisionsExactly | internal/controller/clusterlab_controller.go:125-150 | for any calls failing: namespace, quota and policy are there exactly as far as the calls go through, under the identity labels; nothing else changes |
| ProvisionPass.RefusalTells | internal/controller/clusterlab_controller.go:386-390 | the first of the three calls that fails: an error, phase Failed, Ready false for the reason of that call |
| ProvisionPass.RunningTells | internal/controller/clusterlab_controller.go:145-154 | otherwise phase Running, target, exact expiry, and a delay of exactly what is left of the TTL |
| ProvisionPass.ExpiresExactly | internal/controller/clusterlab_controller.go:111-123 | a live ClusterLab is deleted by a reconcile exactly if its TTL is valid and over, from that very instant on, and the Delete goes through |
| ProvisionPass.DeletesExactly | internal/controller/clusterlab_controller.go:161-195 | a reconcile of a ClusterLab under deletion, call by call: which namespace it marks, when it looks again in three seconds, and that it lets go exactly if the namespace is not found |
| ProvisionPass.OtherPasses | internal/controller/clusterlab_controller.go:73-103 | a reconcile of nothing, of a new ClusterLab, which gets the finalizer, and of one whose TTL cannot be read, which is an error and changes nothing |
| ReadinessGate.FreshMeans | internal/utils/helpers.go:59-64 | under the operator's naming a creation is fresh exactly if no ClusterLab of that or of a colliding name is stored in any namespace of origin and no pass holds its target |
| InstanceQueue.WatchIsRun | internal/controller/instancelab_controller.go:655-663 | (step) the work queue of InstanceLabs is beside the machine: every watched run is a run |
| InstanceQueue.NoForgottenInstance | internal/controller/instancelab_controller.go:106-112 | in every run an InstanceLab that is neither queued nor being reconciled is live and carries the finalizer, and while it waits has a timer for at most five seconds from now |
| InstanceWakes.QueuePlaces | internal/controller/instancelab_controller.go:100-149 | from every state of every run: once the ClusterLab says Running, a pass that the queue starts within five seconds places every child the spec calls for and ends the wait |
| PlacementPass.WaitsExactly | internal/controller/instancelab_controller.go:100-117 | for every store and any calls failing, a reconcile asks for another look in five seconds exactly if the reads go through and the parent of a live InstanceLab does not say Running |
| PlacementPass.WaitingTells | internal/controller/instancelab_controller.go:106-112 | then nothing but the status is written: phase Pending, WaitingForCluster false with its reason and message |
| PlacementPass.PlacesExactlyWanted | internal/controller/instancelab_controller.go:119-149 | behind the open gate, for any calls failing: the child of a kind is there exactly if it was, or if the spec calls for it (PVC with a storage limit, Pod, Service with ports, Ingress with an exposed port) and the calls up to its own go through; nothing else changes |
| PlacementPass.RefusalTells | internal/controller/instancelab_controller.go:119-149 | the first child that fails ends the pass in an error; the phase is Failed and Ready false for the reason of that child |
| PlacementPass.PlacedTells | internal/controller/instancelab_controller.go:601-646 | without failures: owner, phase and PodReady follow parent and Pod as they were found |
| GatePass.GateOpensExactly | internal/controller/instancelab_controller.go:100-149 | for every store and any calls failing, one InstanceLab reconcile opens the gate exactly if its target is active, empty and lacks quota or policy, its parent says Running, and the reads and the first creation go through |
| Counterexamples.GateNeedsFreshTargets | internal/controller/instancelab_controller.go:101-123 | a run in which a ClusterLab name, with no ClusterLab stored, is used again while a pass holds the old one: a Pod in an active namespace without quota |
| Counterexamples.GateNeedsUnsharedTargets | internal/controller/clusterlab_controller.go:161-195 | a run without failures in which a ClusterLab of another namespace takes the shared target with it while no InstanceLab pass is in flight; its owner creates it anew, and a Pod is placed before the quota |
| Cleanup.DoKeepsTidy | internal/controller/instancelab_controller.go:183-214 | every step keeps: workloads are claimed by stored InstanceLabs, and a cleanup has cleaned what it has passed |
| Cleanup.NoOrphans | internal/controller/instancelab_controller.go:191-212 | in every run with bulk deletes that go through and references not edited, a workload in an active namespace has its InstanceLab stored, with finalizer and the right target |
| CleanupPass.CleanupExactly | internal/controller/instancelab_controller.go:183-214 | after a cleanup pass, for every store and any calls failing, an object is gone exactly if it lies in the namespace cleaned, carries the label and the bulk delete of its kind went through; the InstanceLab is gone exactly if the last call went through |
| CleanupPass.OrphansExactly | internal/controller/instancelab_controller.go:191-212 | exactly when the pass leaves a workload of an InstanceLab that is gone |
| Isolation.BulkDeleteHitsOwnOnly | internal/controller/instancelab_controller.go:200-205 | exactly when a bulk delete hits no workload of another InstanceLab |
| Isolation.CleanupLeavesSiblings | internal/controller/instancelab_controller.go:191-205 | while the parent is stored, the bulk deletes leave every other InstanceLab's workloads as they are |
| Counterexamples.CleanupNeedsBulkDeletes | internal/controller/instancelab_controller.go:202-212 | an instance of CleanupExactly in a run: the bulk deletes fail, the InstanceLab is gone, its Pod runs on |
| Counterexamples.CleanupNeedsFixedReferences | internal/controller/instancelab_controller.go:191-198 | another one, without failures: the reference is edited before the deletion, cleanup goes elsewhere, the Pod runs on |
| Counterexamples.DeletionTakesNeighbours | internal/controller/clusterlab_controller.go:167-178 | deleting a ClusterLab marks the namespace of another one exactly if they share the target, of whatever origin |
| Drain.StepDrains | internal/controller/clusterlab_controller.go:174-194 | (step of DeletionNeverAdds) once the namespace terminates no step of anybody brings it back, adds an object, or adds to what is left |
| Drain.DeleteDrains | internal/controller/clusterlab_controller.go:171-185 | (step of DeletionNeverAdds) in every reachable state the Delete call of a pass leaves no provisioning pass for the ClusterLab and no active namespace |
| Drain.ObjectDecreases | internal/controller/clusterlab_controller.go:180-185 | (step) every object that goes leaves less |
| Drain.SpaceDecreases | internal/controller/clusterlab_controller.go:180-185 | (step) and so does the empty namespace |
| Drain.DeletionNeverAdds | internal/controller/clusterlab_controller.go:171-185 | in every run, from the Delete call of the reconciler until the ClusterLab is gone, its namespace holds only objects that it held before the call, and what is left never grows |
| Drain.TerminatingNeverAdds | internal/controller/clusterlab_controller.go:171-185 | the same from any reachable state in which the namespace is found terminating |
| Drain.DeletionCompletes | internal/controller/clusterlab_controller.go:161-195 | from every state of every run a ClusterLab under deletion, and its namespace, can be taken away in a bounded number of steps |
| DeletionWakes.DeletionWakes | internal/controller/clusterlab_controller.go:180-185 | in every run a ClusterLab under deletion that is not being reconciled carries the finalizer and is queued, or has a timer for at most three seconds from now |
| DeletionWakes.QueueCompletesDeletion | internal/controller/clusterlab_controller.go:161-195 | from every state of every run, passes that start only on a queued key can take ClusterLab and namespace away, in a bounded number of steps and within three seconds |
| ClusterSettling.RunningSettles | internal/controller/clusterlab_controller.go:378-381 | (step of PassesSettle) the four reports of a pass, made again at any later time, change nothing |
| ClusterSettling.LivePass | internal/controller/clusterlab_controller.go:104-154 | what a pass without failures leaves, in closed form |
| ClusterSettling.PassSettles | internal/controller/clusterlab_controller.go:73-155 | a pass without failures changes nothing or leaves less to do |
| ClusterSettling.PassesSettle | internal/controller/clusterlab_controller.go:73-155 | of any number of passes without failures, at any times, at most four change something |
| InstanceSettling.ObservedSettles | internal/controller/instancelab_controller.go:601-646 | (step of PassesSettle) the status read off the Pod, written again at any later time, changes nothing |
| InstanceSettling.PlacesGetDone | internal/controller/instancelab_controller.go:119-149 | one pass leaves every child as the next one would |
| InstanceSettling.PassSettles | internal/controller/instancelab_controller.go:69-157 | a pass without failures changes nothing or leaves less to do |
| InstanceSettling.PassesSettle | internal/controller/instancelab_controller.go:69-157 | of any number of passes without failures at most two change something |
| Deadlines.NeverDeletedEarly | internal/controller/clusterlab_controller.go:111-123 | in every run, an operator step that ends a ClusterLab's life comes after creation plus the TTL its pass had read |
| Deadlines.ExpiryNeverMissed | internal/controller/clusterlab_controller.go:197-217 | a live ClusterLab at rest stores its exact expiry and has a timer at most the pass's duration later |
| Deadlines.TimersComeEarlier | internal/controller/clusterlab_controller.go:149-152 | a timer is never put off: until it rings it only comes earlier |
| Counterexamples.ExpiryNeedsBothReadings | internal/controller/clusterlab_controller.go:211-216 | a pass leaves a timer exactly if both clock readings come before the expiry; otherwise an expired lab is left with none |
| Counters.MembersStable | internal/controller/clusterlab_controller.go:396-417 | a write leaves a ClusterLab's members as they are or queues it, re-parenting included |
| Counters.CountersAreTrue | internal/controller/clusterlab_controller.go:363-376 | a live ClusterLab at rest stores the true numbers of referencing and of running InstanceLabs, if no list failed |
| Counterexamples.CountersNeedTheList | internal/controller/clusterlab_controller.go:363-376 | after a pass that ends well over a live ClusterLab, with a TTL that has not run out or without one, the counters agree exactly if the list went through or they agreed before |
| Coherence.StoredStatusesCoherent | internal/controller/clusterlab_controller.go:378-390 | in every run: a ClusterLab is Running exactly if Ready is True, and then all four conditions are, and Failed exactly if Ready is False; an InstanceLab that runs is Ready with its Pod, one created or failed is not Ready, one that waits says so; types unique |
| Coherence.ObservedTells | internal/controller/instancelab_controller.go:601-643 | which phase and conditions each Pod phase gives; an unknown one leaves PodReady alone |
| Coherence.TimestampsMoveOnFlips | internal/utils/helpers.go:108-116 | in every run, a step moves a stored condition's timestamp only together with its status |
| QuotaHistory.HardIsLatest | internal/controller/clusterlab_controller.go:255-280 | a hard limit is the most recent positive one of a history, CPU and memory for limits and requests alike |
| QuotaHistory.LabelIsLatest | internal/controller/clusterlab_controller.go:223-236 | a propagated label has the most recent value; no other label but the identity ones is set |
| QuotaHistory.IdentityKept | internal/controller/clusterlab_controller.go:227-234 | the identity labels are never overwritten by propagated ones |
| QuotaHistory.PolicyMeans | internal/controller/clusterlab_controller.go:302-324 | mode external admits everybody, internal the own namespace, any other mode nobody, in whatever case it is spelled |
| QuotaHistory.NamespaceRemembers | internal/controller/clusterlab_controller.go:219-333 | in every run, labels, quota and policy of a namespace are what the passes since its creation laid over each other; propagated are labels that begin with student_, lab_ or session_ |
| Durations.ThresholdsExact | internal/controller/notebooklab_controller.go:125-184 | thresholds are exact exactly up to 106751 days, 2562047 hours and 153722867 minutes |
| Durations.LongInactivityWraps | internal/controller/notebooklab_controller.go:125-125 | (step of LongPurgeIsImmediate) from 106752 to 213503 days the purge threshold is negative |
| Durations.ReachedExactly | internal/controller/notebooklab_controller.go:124-149 | a threshold is reached exactly when the clock has passed start plus threshold, saturation notwithstanding |
| NotebookPasses.WaitIsMinimum | internal/controller/notebooklab_controller.go:115-205 | at the three readings of the clock the delay is 0 exactly if nothing is pending and otherwise the least that a pending policy has left at its reading |
| NotebookPasses.DueExactly | internal/controller/notebooklab_controller.go:115-184 | each policy fires exactly from its start plus its 64-bit threshold on, saturation notwithstanding |
| NotebookPasses.PoliciesDecide | internal/controller/notebooklab_controller.go:109-206 | up to the children, and however the clock moves between its readings, a pass does what the three policies say, each at its own reading |
| NotebookPasses.PassHeals | internal/controller/notebooklab_controller.go:44-107 | a pass without failures, however long each step takes, purges the notebook, or leaves it healed and asks for the delay of its readings |
| NotebookPasses.ForcedPause | internal/controller/notebooklab_controller.go:153-203 | past idle timeout or lifespan: spec and Deployment at 0 replicas, phase Pausing or Paused, after one pass, however long its steps take; or purged, only if that was due before it ended |
| NotebookPasses.PassesSettle | internal/controller/notebooklab_controller.go:44-107 | of any number of passes without failures, at any times and of any length, at most three change something |
| NotebookDeadlines.DoKeepsTimely | internal/controller/notebooklab_controller.go:63-106 | every step keeps: a pass in flight has counted every armed policy of the object it holds, or the key is queued |
| NotebookDeadlines.StatusCovers | internal/controller/notebooklab_controller.go:672-693 | a status write that changes nothing leaves a timer for every policy the phase arms |
| NotebookDeadlines.NoLostDeadline | internal/controller/notebooklab_controller.go:63-106 | in every run a stored notebook is queued, in reconciliation, or has a timer for each armed deadline, late at most by a pass |
| NotebookHealing.PatchHeals | internal/controller/notebooklab_controller.go:498-503 | (step) a patch of the object read makes it match the one wanted |
| NotebookHealing.QuiescentMeansHealed | internal/controller/notebooklab_controller.go:208-217 | in every run a notebook at rest has all its children, a Deployment that matches its spec, and the phase of both |
| NotebookHealing.QuiescentUrlRight | internal/controller/notebooklab_controller.go:686-691 | and the URL of its Secret's token, if no read of the token failed |
| NotebookTells.RestTells | internal/controller/notebooklab_controller.go:208-217 | the same in the spec's own terms: replicas asked for, labels, a template that serves the spec, all children, and the phase that the Deployment's counts call for (Running exactly with a ready replica asked for, and so on) |
| NotebookTells.RestUrl | internal/controller/notebooklab_controller.go:686-691 | and the URL with the stored token |
| NotebookTells.RestTimed | internal/controller/notebooklab_controller.go:109-206 | in every run a notebook at rest has a timer for the purge, and while it asks for replicas and has a ready one, for idle timeout and lifespan, in the spec's own days, minutes and hours |
| NotebookTells.DeletesOnlyInactive | internal/controller/notebooklab_controller.go:118-147 | in every run the operator deletes only what has been inactive for the days the spec says |
| NotebookTells.OverdueIsPaused | internal/controller/notebooklab_controller.go:149-203 | past idle timeout or lifespan in the spec's own units, one pass pauses |
| NotebookTells.OnlyOverdueIsPaused | internal/controller/notebooklab_controller.go:149-203 | and a pass that ends before them changes no spec |
| NotebookTells.StepsAreHonest | internal/controller/notebooklab_controller.go:71-106 | in every run: a PVC is made only for a workspace, the Secret with the default token, and a phase is stored only for the replicas it speaks of, Failed only by a pass that failed |
| NotebookTells.ChildErrorTells | internal/controller/notebooklab_controller.go:696-704 | a child that fails: phase Failed and the key queued |
| NotebookTells.SecretIsRemade | internal/controller/notebooklab_controller.go:267-298 | (step) a Secret that is gone when the token is read is made again with the default token |
| NotebookPurge.DeletesOnlyWhenDue | internal/controller/notebooklab_controller.go:118-147 | in every run the operator deletes PVC and notebook only in a pass that found the threshold reached |
| NotebookPurge.PurgingOnlyDeletes | internal/controller/notebooklab_controller.go:133-146 | a purging pass, whichever calls fail, only deletes PVC and notebook and creates nothing |
| NotebookPurge.PurgesExactly | internal/controller/notebooklab_controller.go:133-146 | call by call: the PVC goes exactly if it is found and deleted; whatever becomes of it, the notebook goes exactly if its own Delete goes through |
| NotebookPurge.NeverResumes | internal/controller/notebooklab_controller.go:167-193 | left to operator and Kubernetes, a spec stays as it is or becomes its paused form for good |
| NotebookCounterexamples.PurgeOnTimeExactly | internal/controller/notebooklab_controller.go:124-127 | for every value of the 32-bit field: a notebook is never purged before its time exactly if the field is at most 106751 days |
| NotebookCounterexamples.IdleOnTimeExactly | internal/controller/notebooklab_controller.go:151-160 | a running one is never paused for idleness before its time exactly up to 153722867 minutes |
| NotebookCounterexamples.LifespanOnTimeExactly | internal/controller/notebooklab_controller.go:180-187 | nor for its age exactly up to 2562047 hours |
| NotebookCounterexamples.LongPurgeIsImmediate | internal/controller/notebooklab_controller.go:124-146 | a notebook that may be inactive for 106752 to 213503 days is purged by its next pass, however active it is |
| NotebookCounterexamples.UrlNeedsTheToken | internal/controller/notebooklab_controller.go:686-693 | with another token in the Secret, the default URL stays at rest exactly if the read fails |
| PodBuild.ValueOf | internal/controller/notebooklab_controller.go:541-541 | whole units of a quantity, rounded up |
| PodBuild.LimitsOverrideOnlyGpu | internal/controller/notebooklab_controller.go:520-552 | user limits are overridden only under the device plugin's names |
| PodBuild.SetEnvKeeps | internal/controller/notebooklab_controller.go:554-562 | names, secrets and order of all entries are kept; one is appended exactly if the name is new |
| PodBuild.SetEnvUnique | internal/controller/notebooklab_controller.go:554-562 | unique names stay unique, and the variable then has the value |
| PodBuild.DecimalParses | internal/controller/notebooklab_controller.go:543-543 | the decimal text of a number reads back as the number |
| PodBuild.GpuNumbersAgree | internal/controller/notebooklab_controller.go:534-549 | gpumem is the whole mebibytes of the quantity in bytes; limits and environment carry the same numbers; the token stays |
| PodServes.TemplateServes | internal/controller/notebooklab_controller.go:309-463 | the template is right for its spec: image and requests as they are, workspace claim and read-only datasets at their paths, scratch space, the token of the Secret, tolerations, escalation exactly with a GPU |
| PodServes.MountsMeanOneVolume | internal/controller/notebooklab_controller.go:309-367 | every mount names exactly one volume, if and only if the names in the spec do not clash |
| PodServes.OnlyWorkspaceIsWritable | internal/controller/notebooklab_controller.go:312-349 | the only claim that is mounted for writing is the workspace's, which a purge deletes |
| PodServes.GpuAddsExactly | internal/controller/notebooklab_controller.go:520-552 | resource by resource, what a GPU adds to the user's limits under each provider |
| PodServes.GpuAddsNoEnv | internal/controller/notebooklab_controller.go:520-552 | without memory or cores to share a GPU adds no variable |
| PodBuilder.Container.SetOrUpdateEnv | internal/controller/notebooklab_controller.go:554-562 | the loop over the slice, changed in place, leaves what the function gives |
| PodBuilder.Container.InjectGpuResources | internal/controller/notebooklab_controller.go:520-552 | limits and environment of the container, changed through references |
| PodBuilder.BuildVolumes | internal/controller/notebooklab_controller.go:309-367 | volumes and mounts: workspace, datasets in order, tmp |
| PodBuilder.Build | internal/controller/notebooklab_controller.go:418-463 | the template of the spec, which serves the spec; no object of the spec is changed |
| Routing.ReconcilePod | internal/controller/instancelab_controller.go:371-378 | one container port for each port, under the Pod's own app label |
| Routing.ReconcileServices | internal/controller/instancelab_controller.go:457-502 | no Service exactly if there are no ports; otherwise it selects the Pod's label and maps every port to its target |
| Routing.ReconcileIngress | internal/controller/instancelab_controller.go:504-595 | an Ingress exactly if there is a Service and an exposed port; one backend, the first exposed port; one host for TLS and rule |
| Routing.UpdateEndpoints | internal/controller/instancelab_controller.go:623-637 | the endpoint of every port, in order |
| Routing.Route | internal/controller/instancelab_controller.go:119-153 | on the objects built, port by port: Service to Pod, endpoint to Service; one backend, the first exposed port; one host, and the URL of exactly the exposed ports; Service and Ingress exactly when a placement makes them; no missing Service or Pod is followed |
| Routing.Exposed | internal/controller/instancelab_controller.go:510-518 | the exposed ports, none missing and none added |
| Routing.RoutingChain | internal/controller/instancelab_controller.go:371-637 | (step of Route) the endpoints have the Service's address inside the cluster and, exactly if exposed, the URL |
| Routing.SelectsOwnPod | internal/controller/instancelab_controller.go:464-480 | the Service of one instance selects the Pod of another exactly if both names are over 56 characters and agree in kept part and hash |

## Left out

- cmd/main.go, flags, metrics, manifests, images and provisioning scripts: wiring, with nothing to prove.
- ClusterLabReconciler.UpdateClusterLabStatus: does not model the quota usage figures, whose read error is ignored and whose freshness nothing guarantees.
- ClusterLabReconciler.UpdateStatusFailed: the condition message is the reason; the text of the API error is not modelled.
- InstanceLabReconciler.UpdateStatusFailed: likewise the reason stands for the error text.
- InstanceLabReconciler.UpdateInstanceLabStatus: Pod name, Pod address and endpoints are not part of this status; the endpoints are in `Routing`.
- InstanceLabReconciler.PlaceChildren: a child is its kind, name and labels; the contents of PVC, Pod, Service and Ingress are not stored, so that a drift of their contents is not seen.
- ClusterLabReconciler.CountMembers: counters are unbounded numbers where the program counts in 32 bits.
- Deadlines.ExpiryNeverMissed: instants are whole nanoseconds; that the API server stores times to the second is not modelled.
- CreateOrUpdate is one atomic call, and reads are linearizable; a cached read that lags behind is not modelled.
- Resource versions: an update succeeds exactly if the stored object equals the one read; a change and its reversal in between is not told apart from no change.
- In `LabSystem` a pass of any InstanceLab may start at any time, which admits every order of the real queue; the queue itself is kept beside it in `InstanceQueue`.
- ClusterSettling.PassesSettle: the clock stands still within a pass; time goes by between passes.
- InstanceSettling.PassesSettle: likewise; in `LabSystem`, and so in every result about runs, time goes by between any two calls.
- Fairness: drain and settling results bound work and show that completion is always possible; that queued keys are eventually served is not modelled.
- Other clients: nobody else strips finalizers, writes operator statuses, creates or deletes target namespaces, or owns objects under child names; quota and policy are not deleted by hand.
- The parent's phase is compared with Running only; the operator writes no other spelling, and never Ready.
- Quota amounts are not negative, as the API server would refuse them.
- NotebookDeadlines.NoLostDeadline: an activity is never reported with a time in the future.
- NotebookHealing.QuiescentMeansHealed: of Service, Ingress, PVC and Secret only existence and the token are modelled; the code never repairs their contents.
- Notebook deletion takes the object away at once (background deletion); children are then removed by garbage collection, in any order, as steps of their own.
- Merge patches carry whole fields (labels, replicas, template); the strategy is constant, and defaulting by the API server is not modelled.
- PodBuilder.Build: node selector, pull secrets, security contexts beyond privilege escalation, and the access mode and size of claims are constants or copies and are not modelled.
- PodBuild.ValueOf: quantities beyond 64 bits are not cut off.
- SHA-1 is any function to seven hex digits; names are sequences of ASCII characters, where the program cuts bytes.
- LXCFS mounts of the Pod, filled from an unordered map, and all other Pod contents of an InstanceLab: written at creation only.
- `GetStorageClassName` and `GetIngressClassName`: read environment variables.
