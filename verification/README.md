# libsveltos: deployer queue, resource ownership and cluster caches, verified

This project models four stateful parts of libsveltos in Dafny and proves properties of the model, most of
them over every run. `dafny verify dfyconfig.toml` checks all of it.

**The deployer work queue** (`RequestKey`, `WorkQueue`, `Deployer`, `Queue*`). `Deployer.Deployer` is the
object with its slices and maps, one method per critical section, each with the loops of the source, tied to a step function
on values in `WorkQueue`. `QueueRuns` interleaves client calls with takes and stores of any number of workers, in any
order, and `QueueSafety`, `QueueFreshness`, `QueueProgress` and `QueueConditions` are about all such runs. A *double-queue step* on a key is an
accepted Deploy of it that finds it queued but neither dirty nor in progress; it can happen because a requeue takes
the key out of dirty.

**Resource ownership** (`Decimal`, `Objects`, `OwnerReferences`, `Ownership*`, `Interleaving`, `Applier`, `Cleanup*`).
Profiles contend for a cluster object through annotations. `Ownership` holds the decision and the stamps,
`OwnershipRuns` any sequence of attempts, `Interleaving` any interleaving of checks and applies against a server that compares
resourceVersions, as the Kubernetes API Conventions ask ("Concurrency Control and Consistency"). `Applier` has the step-by-step
code over an API server object whose calls may fail at will, and `CleanupRuns` mixes deploys, takeovers, listings and
cleanups on many objects.

**The cluster cache** (`ManagementCluster`, `CacheState`, `ClusterCache`, `CacheCoherence`). Five maps and the shared Set
objects of the reverse index, updated in place. In `CacheCoherence` a build holds the lock but the management cluster
may change between any two of its reads.

**The workload-identity cache** (`WorkloadIdentity`, `IdentityRuns`, `CacheLayers`). Spec hashes, expiry and
shared flights; `CacheLayers` puts the cluster cache on top of it for calls one after the other, `IdentityCoherence` for
calls that overlap, and `InvalidationRaces` looks at an invalidation among them.

## Findings

Where the code does less than its documentation says, the code is modelled and the exact condition under which it
meets the claim is proved.

- `lib/deployer/worker.go:45-48` says a request is never processed more than once in parallel. That is guaranteed exactly
  as long as no double-queue step occurs (`QueueProgress.ParallelExactlyAfterDoubleQueue`), and so is the freshness of
  results (`QueueConditions.StaleExactlyAfterDoubleQueue`).
- A Deploy that arrives while its request runs is served again, but with the handler and options of the invocation
  that was running (`QueueConditions.NextInvocationOptions`).
- `lib/deployer/worker.go:92` calls the key unique. A request shares its key with another exactly if one of its string
  fields contains ":::", or has a ":" next to a separator with another string field on its far side
  (`RequestKey.KeyIsSharedExactlyWhenBlurred`). Its handler gets its own fields exactly if none contains ":::" or ends
  in ":" (`Deployer.HandlerGetsTheRequest`).
- `lib/deployer/applier.go:161-172` promises that the resourceVersion guards the decision. It does exactly when the check
  found the object (`Interleaving.LockProtectsExactlyWithAVersion`), and never for a CustomResourceDefinition, whose
  version is fetched again just before its update (`Interleaving.RefetchDefeatsEveryCheck`).
- A cleanup deletes by name, not by version: it can remove the object of another profile exactly if its listing calls
  for a deletion (`CleanupRuns.CleanupCanHitOthersExactlyWhenDeleting`).
- RemoveSecret leaves the reverse set behind (`CacheCoherence.RemoveSecretKeepsItsReverseSet`); GetMapper finds a
  config without mapper exactly if StoreRestConfig stored it when there was none (`CacheCoherence.MapperlessExactlyWhenStored`); the
  clients that ResetMapper and InvalidateDiscoveryClient call are nil exactly if the latest recorded build read pull
  mode, which a cluster may have left since (`CacheCoherence.NilClientsExactlyAfterANilRecord`).
- The cluster cache does not look at the clock (`CacheLayers.TimeLeftOnAReturnedConfig`). It can keep a config for an
  endpoint the spec no longer names, or with a CA that has been replaced: exactly if the provider call behind it was for
  another endpoint, or its CA Secret read otherwise (`IdentityCoherence.SettledHitIsAnUncachedBuild`). RemoveSecret of the
  CA Secret does not help, since the cluster is tracked to another Secret (`IdentityCoherence.SettledHitWithAnOldCa`).
- An eviction is undone exactly by a flight under way or by a call that has missed and not entered yet
  (`IdentityRuns.EvictionIsUndoneExactlyByOlderCalls`), and a call that has missed asks the provider exactly if it finds
  no flight, whatever the cache holds by then (`IdentityRuns.AsksExactlyWithoutAFlight`).
- InvalidateOnAuthError empties the two caches one after the other. A build in between can bring the rejected config
  back, exactly if the cache underneath could still hand it out (`InvalidationRaces.InvalidationIsUndoneExactlyFromBelow`).

## Assumptions

- Names of profiles and kinds of reference sources are non-empty, tiers are at least 1 (`api/v1beta1/configurationgroup_type.go:107`) and,
  with reference tiers, fit 32 bits. `CleanupRuns.OwnedObjectsStay` and `CleanupRuns.DisplacedOwnerCanStillDelete` also
  need a profile kind that is not empty.
- Tiers are fixed per profile, and reference tiers per profile and source, where a statement says `Fixed` or `FixedTiers`.
- The SHA-256 of a workload-identity spec is a function of the spec; `IdentityRuns.HitsFitTheirCaller` and
  `IdentityCoherence.SettledHitIsAnUncachedBuild` assume that it does not collide.
- What the environment answers is an argument or a free choice: API calls fail at will, kubeconfigs may be malformed, providers
  refuse or issue tokens, and time is a number.

## Model

| member | source | states |
|---|---|---|
| RequestKey.SplitJoin | lib/deployer/worker.go:103-153 | splitting leftmost-first at ":::" undoes joining when no part but the last ends in ":" and none contains ":::" |
| RequestKey.JoinSplit | lib/deployer/worker.go:103-153 | joining the parts a key splits into gives back the key, for every text |
| RequestKey.SplitParts | lib/deployer/worker.go:103-153 | every part but the last that a split yields contains no ":::" and does not end in ":" |
| RequestKey.KeyRoundTrip | lib/deployer/worker.go:95-153 | the four parsers give back all six fields of a GetKey if and only if no string field contains ":::" or ends in ":" |
| RequestKey.KeyIsSharedExactlyWhenBlurred | lib/deployer/worker.go:92-98 | for every request: another request has the same key if and only if one of its string fields contains ":::", one of the first four ends in ":" or one of the last four starts with ":" |
| RequestKey.FinestCut | lib/deployer/worker.go:92-98 | a sequence of parts without ":::" inside or ":" at an inner edge is the only way to cut its text into that many parts, and every other way has fewer |
| Deployer.RemoveFromSlice | lib/deployer/worker.go:319-322 | swap-remove: exactly one occurrence goes, as a multiset, and the last element takes its place |
| Deployer.Deployer.RegisterFeatureID | lib/deployer/client.go:77-89 | a feature registers once; a second attempt fails and changes nothing |
| Deployer.Deployer.Deploy | lib/deployer/client.go:95-144 | fails exactly for an unregistered feature; otherwise the new state is the one the run theorems are about (dirty request: options replaced; running: marked dirty; else marked and queued; stored result dropped) |
| Deployer.Deployer.UpdateJobQueue | lib/deployer/client.go:146-155 | every queued entry of the key gets the new handler, metric and options, all others and the order stay |
| Deployer.Deployer.TakeRequest | lib/deployer/worker.go:185-208 | the front of the queue is handed out, becomes in progress and stops being dirty; nothing happens on an empty queue |
| Deployer.Deployer.ProcessRequest | lib/deployer/worker.go:162-184 | a key whose cleanup flag cannot be read back is stored as failed without the handler; any other calls the handler with what its key reads back as, and stores the outcome |
| Deployer.HandlerGetsTheRequest | lib/deployer/worker.go:162-184 | a handler gets the very namespace, name, type, applicant and feature its request was deployed with if and only if no string field contains ":::" or ends in ":" |
| Deployer.Deployer.StoreResult | lib/deployer/worker.go:220-266 | one copy leaves inProgress; a dirty key is requeued without a result, any other gets the outcome as its result |
| Deployer.Deployer.GetResult | lib/deployer/worker.go:272-317 | Deployed or Removed exactly for a stored success, by whether a cleanup was asked for; Failed with the stored error; InProgress exactly without a result while running or queued; Unavailable otherwise; the result is forgotten by being read |
| Deployer.Deployer.IsInProgress | lib/deployer/client.go:197-216 | true if and only if the key is in inProgress |
| Deployer.Deployer.CleanupEntries | lib/deployer/client.go:218-256 | the first dirty and the first queued occurrence go, order kept, and the result goes; inProgress stays |
| QueueSafety.StepView | lib/deployer/worker.go:188-266 | what any step does to any one key: copies waiting, copies running, dirty, has a result |
| QueueSafety.AlwaysConsistent | lib/deployer/worker.go:36-48 | in every run, dirty has no duplicates, dirty keys are waiting or running and have no result, and inProgress as a multiset is what the workers hold |
| QueueSafety.DirtyIsPending | lib/deployer/client.go:115-141 | in every run dirty is contained in jobQueue and inProgress together and disjoint from results |
| QueueSafety.InProgressMeansRunning | lib/deployer/client.go:197-216 | in every run IsInProgress is true of a key if and only if some worker is running it |
| QueueSafety.CopiesStep | lib/deployer/client.go:115-141 | only an accepted Deploy of a key that is neither dirty nor running adds a copy of it; a double-queue step makes at least two |
| QueueSafety.CopiesBounded | lib/deployer/worker.go:45-48 | for every run and key, copies queued and running never exceed 1 plus the number of double-queue steps on the key |
| QueueSafety.TwoCopiesExactlyAfterDoubleQueue | lib/deployer/worker.go:45-48 | a key has two copies at some point of a run if and only if the run has a double-queue step on it |
| QueueSafety.NeverTwiceInParallel | lib/deployer/worker.go:45-48 | without a double-queue step on a key no two workers run it together: the true form of the comment |
| QueueSafety.TwoWorkersCanRunTheSameKey | lib/deployer/worker.go:251-262 | a run with one double-queue step in which two workers run the same key: the comment as written does not hold |
| QueueSafety.ResultMeansIdle | lib/deployer/worker.go:244-265 | without double-queue steps on a key, a stored result means the key is not queued, not running and not dirty |
| QueueSafety.OutstandingIsTracked | lib/deployer/client.go:95-144 | no accepted request is lost: until GetResult or CleanupEntries it is queued, running or has a result, double-queue steps or not |
| QueueSafety.OutstandingIsNeverUnavailable | lib/deployer/worker.go:268-271 | GetResult never reports such a request as unavailable |
| QueueFreshness.WorkerProvenance | lib/deployer/worker.go:188-199 | what a worker runs is what the take it is traced to found at the front of the queue, held ever since |
| QueueFreshness.ResultProvenance | lib/deployer/worker.go:244-265 | a stored result is what some worker returned for that key, in the invocation it is traced to |
| QueueFreshness.AnswersComeFromHandlers | lib/deployer/client.go:157-194 | over every run, an answer Deployed or Removed means that the worker whose outcome is stored returned success, and Failed that it returned that error |
| QueueFreshness.ResultsAreFresh | lib/deployer/worker.go:244-265 | without double-queue steps, a stored result comes from an invocation taken after the latest Deploy since the last CleanupEntries, even one that arrived mid-run |
| QueueFreshness.QueuedEntryPayload | lib/deployer/client.go:115-155 | a queued entry that is dirty carries the options of the latest Deploy; one that was requeued carries those of the invocation before |
| QueueConditions.StaleExactlyAfterDoubleQueue | lib/deployer/worker.go:244-265 | in a pool of two or more: some point of the run allows a result older than the latest Deploy to be stored, without further double-queue steps, if and only if the run has a double-queue step on the key |
| QueueConditions.NextInvocationOptions | lib/deployer/client.go:107-155 | without double-queue steps: the next invocation after an accepted Deploy that is neither repeated nor cancelled gets its options if and only if the key was not running then, or was running with those options already |
| QueueProgress.StepMeasure | lib/deployer/worker.go:188-266 | 2*jobQueue + inProgress + 2*dirty goes down at every take and every store, and only Deploy raises it, by at most 4 |
| QueueProgress.DrainsWithinMeasure | lib/deployer/worker.go:188-266 | without new Deploys, takes and stores done plus measure left never exceed the measure at the start |
| QueueProgress.QuietMeansDone | lib/deployer/worker.go:188-266 | when no take or store is left, queue, inProgress and dirty are empty and every outstanding request has a result |
| QueueProgress.CanAlwaysDrain | lib/deployer/worker.go:188-266 | any run of a non-empty pool can be carried on by the workers alone until then |
| QueueProgress.CopiesCanMeet | lib/deployer/worker.go:188-266 | once a key has two copies, a pool of two or more workers can come to run both at once without any client call |
| QueueProgress.ParallelExactlyAfterDoubleQueue | lib/deployer/worker.go:45-48 | the exact condition of the comment: some point of the run allows the workers alone to run the key twice at once if and only if the run has a double-queue step on it |
| QueueProgress.MoveIsRight | lib/deployer/worker.go:192-193 | a step moves a waiting entry never back, and forward on every take |
| QueueProgress.FirstComeFirstServed | lib/deployer/worker.go:189-193 | over whole runs, a waiting entry is ahead of its start by at least the number of takes since |
| QueueProgress.ServedByTakeNumber | lib/deployer/worker.go:189-193 | an entry at position i has left the queue by the (i+1)-th take |
| QueueProgress.ServedMeansTaken | lib/deployer/worker.go:189-199 | an entry that left by a take was handed, with its key, to a worker |
| Decimal.ParsePrint | lib/deployer/conflicts.go:51-66 | a tier written into an annotation in decimal reads back as itself if it fits 32 bits, and as unreadable otherwise |
| Decimal.NumbersAreDigits | lib/deployer/conflicts.go:51-58 | what reads as a tier is digits after at most one sign, and fits 32 bits |
| Applier.ValidateSveltosOwner | lib/deployer/utils.go:276-303 | conflict if and only if the owner annotations name another (kind, name) or, without them, some owner reference is a Sveltos one and none is the profile |
| Applier.HasSveltosResources | lib/k8s_utils/utils.go:292-308 | true if and only if some owner reference is of a Sveltos API version |
| Applier.ValidateObjectForUpdate | lib/deployer/utils.go:157-226 | reports the object as it is, its owner tier, and a conflict if and only if the source or the owner differs; the hash only without conflict |
| Applier.CanDeployResource | lib/deployer/applier.go:442-471 | allows exactly what the tier decision allows and reports the rest as a conflict; on a stamped object it asks for the old owner to be requeued exactly when the claim is not the present owner with the present source or a lower reference tier |
| Ownership.DecideOnManaged | lib/deployer/applier.go:448-470 | on a stamped object: allowed if and only if the tier is lower, or it is the present owner with the present source or a lower reference tier; in all but the latter case the old owner is requeued |
| Ownership.DecideOnUnmanaged | lib/deployer/utils.go:184-226 | an object without any Sveltos mark can be deployed by anyone, without requeueing |
| Ownership.DecideOnOwnerReferences | lib/deployer/utils.go:294-303 | an object that only owner references hold stays its owner's, and goes to anyone else of a tier below the highest, with the old owner requeued |
| Ownership.UnreadableTiers | lib/deployer/conflicts.go:51-66 | a tier that is no number, or 0, counts as 2147483647, and a missing or unreadable reference tier as 100 |
| Ownership.SourcesOfOldLabels | lib/deployer/utils.go:230-274 | the source is read from the annotations, or from the labels when no kind is annotated |
| Ownership.NextCheckFindsTheHash | lib/deployer/utils.go:220-223 | the next check of a deployed policy finds its hash and no conflict with the attempt itself |
| Ownership.StampReadsBack | lib/deployer/applier.go:348-357 | whatever was there before, the stamps read back through text as exactly the attempt that wrote them |
| Ownership.ExtrasKeepStamps | lib/deployer/applier.go:174-176 | extra annotations leave the stamps alone if and only if those that reuse a stamp key repeat its value |
| OwnershipRuns.ObjectRefinesHolder | lib/deployer/applier.go:442-471 | over any sequence of attempts the text on the object never gets in the way: it names the holder the bare tiers determine |
| OwnershipRuns.LowestTierWins | lib/deployer/conflicts.go:31-49 | the final owner is the profile of the earliest attempt of the lowest tier, the final source its earliest one of its lowest reference tier |
| OwnershipRuns.DisplacedOwnersAreRequeued | lib/deployer/applier.go:455-459 | over any sequence of attempts an accepted attempt asks for the old owner to be requeued if and only if it brings in another owner, or another source of no lower reference tier |
| OwnershipRuns.WinnerIsUnique | lib/deployer/conflicts.go:31-49 | the two attempts so described are unique |
| OwnershipRuns.HandoverIsUpward | lib/deployer/utils.go:187-218 | an allowed change of owner or source is to a strictly smaller (tier, reference tier) |
| OwnershipRuns.HolderOnlyGetsStronger | lib/deployer/applier.go:448-470 | from any point of a run to any later one the holder is the same or strictly stronger |
| OwnershipRuns.NeverReturns | lib/deployer/applier.go:448-470 | no ping-pong: an owner and source that lost the object never get it back |
| OwnershipRuns.HandoversCountHands | lib/deployer/applier.go:448-470 | the number of handovers plus one is the number of different owner and source pairs that held the object |
| OwnershipRuns.HandoversAreBounded | lib/deployer/applier.go:448-470 | handovers are fewer than the different owner and source pairs among the attempts |
| Interleaving.PendingIsSound | lib/deployer/applier.go:161-172 | in every run, a check whose resourceVersion is still the stored one still stands |
| Interleaving.ConditionalApplyIsEntitled | lib/deployer/applier.go:161-172 | an accepted versioned apply is one the tiers allow at that very moment |
| Interleaving.InterleavingIsAtomic | lib/deployer/applier.go:584-598 | if every check found the object, any interleaving of checks, applies, retries and foreign writes leaves the object as if each accepted apply were checked and applied at once |
| Interleaving.LockProtectsExactlyWithAVersion | lib/deployer/applier.go:161-172 | for every run and pending apply: the apply can come to be accepted for an object the tiers deny it if and only if its check found no object, and so gave it no version |
| Interleaving.RefetchDefeatsEveryCheck | lib/deployer/applier.go:635-655 | for a CustomResourceDefinition that is always possible, whatever version the check saw: the definition changes hands, is fetched again and is replaced |
| Interleaving.ReplaceOverwritesWhatWasFetched | lib/deployer/applier.go:635-655 | what the refetched version does protect: an accepted replacement overwrites exactly what the latest refetch returned |
| Interleaving.AbsentChecksLoseTheLock | lib/deployer/utils.go:136-144 | two checks that found nothing carry no version: the later apply takes the object against the tiers |
| Applier.Unstructured.StampFor | lib/deployer/applier.go:348-357 | the nine labels and annotations are set on the policy, and nothing else changes |
| Applier.Unstructured.AddMetadata | lib/deployer/applier.go:158-176 | the checked resourceVersion is set, and the extras laid over labels and annotations |
| Applier.CreateNamespace | lib/deployer/applier.go:131-156 | dry run and empty name change nothing; otherwise success means the namespace exists, and nothing else is touched |
| Applier.RecreateResource | lib/deployer/applier.go:108-127 | asks for one deletion of that object; success means it is gone |
| Applier.PatchWithRetry | lib/deployer/applier.go:584-598 | a dry run or a failure changes nothing; a success means the checked version was still the stored one; five conflicts end the retries, any other error at once |
| Applier.UpdateCrd | lib/deployer/applier.go:625-658 | a dry run or a failure changes nothing; success leaves exactly the manifest, sent under the version an existing object then had |
| Applier.ApplySubresources | lib/deployer/applier.go:699-715 | the version is cleared before sending; only the content of an existing object changes, to the policy's, when the call succeeds live; nothing in a dry run |
| Applier.UpdateResource | lib/deployer/applier.go:539-613 | the policy, or what its drift exclusions leave of it, is sent; a dry run changes nothing on any path; live, only this object is touched; one deletion is asked for if and only if it is not a CustomResourceDefinition of apiextensions.k8s.io, recreation was allowed and an apply was rejected as invalid or immutable; success leaves a definition replaced, anything else merged, or alone if recreated, under the checked version unless recreated |
| Applier.RemoveDriftExclusionsFields | lib/deployer/applier.go:497-530 | fields are left out if and only if there are exclusions and, under drift detection, the object exists, otherwise it is a dry run |
| Cleanup.UndeployStaleResource | lib/deployer/clean.go:32-79 | a dry run touches nothing and reports a deletion if and only if the live run would ask for one: the listed copy was deployed by Sveltos, passes the annotation filter, is stamped for the profile and is not deployed now; a release that succeeds leaves it unmanaged unless older owner references hold it |
| Cleanup.HandleResourceDelete | lib/deployer/clean.go:113-143 | leaving policies, success means exactly the ten ownership marks are gone and everything else is kept, so that the object is unmanaged unless older owner references hold it; otherwise one deletion is asked for |
| Cleanup.ReleasedObjectsAreFree | lib/deployer/clean.go:116-137 | a released object that no older owner reference holds can be deployed by anyone, and nobody is requeued for it |
| Cleanup.PolicyInfoInjective | lib/deployer/clean.go:181-187 | GetPolicyInfo is injective on kinds without "." or ":" and groups and namespaces without ":" |
| Cleanup.CanDeleteExactly | lib/deployer/clean.go:98-111 | what is still deployed is never deletable; among such keys everything else is |
| Cleanup.PolicyInfoCanCollide | lib/deployer/clean.go:181-187 | without that restriction two resources can share their policy info |
| CleanupRuns.ListingsAreSound | lib/deployer/clean.go:113-143 | in every run a listing that is not stale shows the object as it is |
| CleanupRuns.CleanupTouchesOnlyItsOwn | lib/deployer/clean.go:52-76 | except for a deletion judged on a stale listing, a cleanup changes an object only if the calling profile owns it now and no longer deploys it, and never another object |
| CleanupRuns.CleanupCanHitOthersExactlyWhenDeleting | lib/deployer/clean.go:113-143 | for every run and listing: the cleanup can come to change an object that its profile may not withdraw if and only if the listing calls for a deletion; a release never can |
| CleanupRuns.OwnedObjectsStay | lib/deployer/clean.go:81-94 | over all runs, an owned object is not lost to deploys of the same or a higher tier nor to cleanups of profiles it displaced, stale deletions and foreign writes apart |
| CleanupRuns.DisplacedOwnerCanStillDelete | lib/deployer/clean.go:113-143 | the exception is real: list, be displaced, clean up, and the new owner's object is gone |
| OwnerReferences.AddOwnerReference | lib/k8s_utils/utils.go:196-223 | nothing changes if the (kind, name) is listed; otherwise its API version, kind, name and UID are appended |
| OwnerReferences.RemoveOwnerReference | lib/k8s_utils/utils.go:230-250 | the first match is swap-removed, everything else stays listed |
| OwnerReferences.RemovedKeepsOthers | lib/k8s_utils/utils.go:238-247 | swap-removal never loses another owner |
| OwnerReferences.RemovalIsCompleteExactlyWithoutDuplicates | lib/k8s_utils/utils.go:238-247 | an owner is still listed after a removal if and only if it was listed twice |
| OwnerReferences.ReferenceCount | lib/k8s_utils/utils.go:191-250 | from distinct references, any sequence of adds and removes keeps them distinct, and an owner is listed if and only if its last operation was an add, or it was listed and never touched |
| OwnerReferences.OnlyOwnerMeansNoOther | lib/k8s_utils/utils.go:253-268 | IsOnlyOwnerReference holds if and only if that owner and no other is listed |
| ClusterCache.ClusterCache.UpdateSecretMap | lib/clustercache/cluster_cache.go:341-349 | the cluster leaves the shared reverse set, which is dropped when it becomes empty |
| ClusterCache.ClusterCache.RemoveCluster | lib/clustercache/cluster_cache.go:84-104 | all five maps forget the cluster and only it; no Set object comes to be shared |
| ClusterCache.ClusterCache.RemoveSecret | lib/clustercache/cluster_cache.go:107-123 | the four forward maps forget exactly the clusters in the Secret's reverse set |
| ClusterCache.ClusterCache.GetKubernetesRestConfig | lib/clustercache/cluster_cache.go:144-204 | a hit is returned unchanged, whatever the time; a miss returns what a build may return, for workload identity what the cache underneath replies, and is recorded in all five maps or none; administrators bypass the cache |
| CacheLayers.WhatAMissReturns | lib/clusterproxy/clusterproxy.go:117-203 | nothing without a cluster, nil in pull mode, the kubeconfig of the named or conventional Secret otherwise, and the Secret the cluster is then tracked to |
| CacheLayers.WhenAMissSucceeds | lib/clusterproxy/clusterproxy.go:377-414 | a miss succeeds in pull mode, and whenever the named or conventional Secret has a loadable kubeconfig under the key, if what it asks for answers |
| CacheLayers.WhatAnAdminGets | lib/clusterproxy/cluster_utils.go:204-227 | a named administrator gets that administrator's config, or nil in pull mode |
| ManagementCluster.ClusterTypeReadsBack | lib/clustercache/cluster_cache.go:351-366 | the reference of a cluster has its kind and API group, from which GetClusterType reads its type back |
| ClusterCache.ClusterCache.GetMapper | lib/clustercache/cluster_cache.go:206-239 | a known mapper is returned; otherwise the cluster is initialised and its mapper returned; it fails only if the build or the Secret lookup does, or if a config without mapper was there |
| ClusterCache.ClusterCache.GetCachedDiscoveryClient | lib/clustercache/cluster_cache.go:241-275 | the same for the discovery client |
| ClusterCache.ClusterCache.StoreRestConfig | lib/clustercache/cluster_cache.go:330-339 | only the config of that cluster changes; its clients are not touched |
| ClusterCache.ClusterCache.InvalidateOnAuthError | lib/clustercache/cluster_cache.go:128-138 | true exactly for 401 and 403; then no map has the cluster and its entry underneath is gone; otherwise neither cache changes |
| CacheState.SecretRemovedIndexed | lib/clustercache/cluster_cache.go:107-123 | the index invariant survives RemoveSecret, after which no cluster is tracked to the Secret |
| CacheState.ClusterRemovedIndexed | lib/clustercache/cluster_cache.go:84-104 | the index invariant survives RemoveCluster |
| CacheCoherence.AlwaysCoherent | lib/clustercache/cluster_cache.go:47-61 | in every run, builds interrupted by changes included: the index invariant holds, and entries and half-done builds of clusters without pending change are current (what that takes on workload identity is in IdentityCoherence) |
| CacheCoherence.HitIsAnUncachedBuild | lib/clustercache/cluster_cache.go:154-204 | a hit for a cluster whose changes have all been followed by RemoveCluster or RemoveSecret is what an uncached build may return now, unless it is on workload identity; its clients belong to it in any case |
| CacheCoherence.HitEqualsEveryUncachedBuild | lib/clustercache/cluster_cache.go:154-204 | where builds are determined a hit equals every uncached build |
| CacheCoherence.MissIsAnUncachedBuild | lib/clustercache/cluster_cache.go:170-204 | so does a kubeconfig or pull-mode build whose reads were interleaved with changes, once it is about to return |
| ManagementCluster.BuildIsDetermined | lib/clusterproxy/clusterproxy.go:377-414 | an uncached build is determined if and only if a kubeconfig entry is named or only one can be read |
| CacheCoherence.NilClientsExactlyAfterANilRecord | lib/clustercache/cluster_cache.go:277-299 | in every run the clients that ResetMapper and InvalidateDiscoveryClient call are nil if and only if the latest build to record the cluster had come to nil, and that build read pull mode |
| CacheCoherence.ClientsAreOfTheLatestRecord | lib/clustercache/cluster_cache.go:190-194 | in every run the mapper and discovery client of a cluster are those of the config its latest record carried |
| CacheCoherence.NilClientsMeanPullMode | lib/clustercache/cluster_cache.go:277-299 | so for a cluster without pending changes they are nil if and only if it is in pull mode now |
| CacheCoherence.NothingStaysTrackedToARemovedSecret | lib/clustercache/cluster_cache.go:107-123 | in every run, after RemoveSecret no cluster is tracked to that Secret and none that was has a config |
| CacheCoherence.ConfigsHaveMappers | lib/clustercache/cluster_cache.go:190-194 | without StoreRestConfig, configs, mappers and discovery clients always have the same keys |
| CacheCoherence.MapperlessExactlyWhenStored | lib/clustercache/cluster_cache.go:221-238 | in every run a cluster has a config but no mapper, so that GetMapper fails, if and only if the config was stored from outside when there was no mapper, and has not been removed since |
| CacheCoherence.StoredConfigStaysWithoutMapper | lib/clustercache/cluster_cache.go:330-339 | a config stored for an unknown cluster stays without a mapper until that cluster, or a Secret it was tracked to, is removed |
| CacheCoherence.ReverseIsExactWithoutRemoveSecret | lib/clustercache/cluster_cache.go:58-60 | without RemoveSecret the reverse index lists exactly the tracked clusters |
| CacheCoherence.RemoveSecretKeepsItsReverseSet | lib/clustercache/cluster_cache.go:116-122 | in every run RemoveSecret leaves the reverse sets, so the index is exact after it if and only if it was before and the Secret had no reverse set |
| CacheCoherence.FetchIsAtomic | lib/clustercache/cluster_cache.go:154-204 | every result of an uncached build can be fetched, for workload identity any token with the endpoint and CA of the spec, and an undisturbed fetch acts like one atomic insertion |
| CacheCoherence.StaleUntilRemoveSecret | lib/clustercache/cluster_cache.go:106-123 | a Secret change that no RemoveSecret has followed leaves a hit that no build would return |
| WorkloadIdentity.IdentityCache.GetRestConfig | lib/clusterproxy/workload_identity.go:111-169 | an entry with the spec hash and more than five minutes left answers by itself; otherwise a named CA Secret must exist and have ca.crt, the provider be AWS, GCP or Azure and issue a token, and only such a success is returned and kept, with that CA, the spec hash and the expiry |
| WorkloadIdentity.IdentityCache.Evict | lib/clusterproxy/workload_identity.go:82-87 | exactly that cluster's entry goes |
| WorkloadIdentity.CacheKeyInjective | lib/clusterproxy/workload_identity.go:89-91 | the cache key names one cluster when namespaces have no "/" |
| WorkloadIdentity.CacheKeysCollide | lib/clusterproxy/workload_identity.go:89-91 | any "/" in a namespace makes its key another cluster's as well |
| IdentityRuns.AlwaysTraced | lib/clusterproxy/workload_identity.go:68-80 | in every run of overlapping calls, evictions and passing time: entries, flights and answers come from recorded provider calls, and each flight has one leader |
| IdentityRuns.EntriesTellTheTruth | lib/clusterproxy/workload_identity.go:68-75 | each entry was built for its cluster from a spec with the stored hash, and expires when its token does |
| IdentityRuns.HitsFitTheirCaller | lib/clusterproxy/workload_identity.go:126-132 | if hashes do not collide, a fast-path answer was built from the caller's own spec and has more than five minutes left; on AWS it is under ten minutes old |
| IdentityRuns.LeadersFitTheirCaller | lib/clusterproxy/workload_identity.go:138-168 | a call that led its flight gets a config for its own spec |
| IdentityRuns.JoinersGetTheLeadersConfig | lib/clusterproxy/workload_identity.go:138-168 | everyone on a flight gets its leader's config, or fails with it |
| IdentityRuns.JoinersFitTheLeader | lib/clusterproxy/workload_identity.go:138-168 | in every run a call that joined a flight holds a config issued to the leader, for the leader's spec and endpoint |
| IdentityCoherence.AlwaysLinked | lib/clustercache/cluster_cache.go:144-204 | over all overlapping calls on both caches: a cached config of a workload-identity cluster without pending change was got by a call with its present spec |
| IdentityCoherence.IssuesCarryTheNamedCa | lib/clusterproxy/workload_identity.go:171-202 | every issued config has no CA where the spec names no Secret, and otherwise what that Secret had under ca.crt at some point of the run |
| IdentityCoherence.SettledHitHasAnOrigin | lib/clusterproxy/workload_identity.go:138-169 | every such config comes from a provider call, whose CA is what its spec's CA Secret read at some point of the run |
| IdentityCoherence.SettledHitIsAnUncachedBuild | lib/clustercache/cluster_cache.go:154-204 | such a hit is what an uncached build may return now if and only if that provider call was for the endpoint of the present spec and the present spec's CA Secret reads as it did then; the call was for the present spec if and only if the one that recorded it did not join a flight led with another |
| IdentityCoherence.SettledHitWithAnOldCa | lib/clusterproxy/workload_identity.go:93-97 | the other side occurs: the CA Secret changes, RemoveSecret and eviction follow, and the old CA is still returned with no change pending |
| IdentityCoherence.SettledHitForAnotherEndpoint | lib/clustercache/cluster_cache.go:154-204 | and again: with a flight for an older endpoint running, a cluster that was changed and removed comes back with the old endpoint |
| IdentityRuns.OneProviderCallPerFlight | lib/clusterproxy/workload_identity.go:107-110 | no call leads two provider calls, and one that hit or joined leads none |
| IdentityRuns.JoinedAcrossASpecChange | lib/clusterproxy/workload_identity.go:138-168 | a call with a newer spec that joins a running flight is given the older spec's config |
| IdentityRuns.EvictedUntilFetched | lib/clusterproxy/workload_identity.go:82-87 | an evicted entry stays out until a fetch for its key completes |
| IdentityRuns.EvictionIsUndoneExactlyByPending | lib/clusterproxy/workload_identity.go:82-87 | without new calls an evicted entry can come back, built from a spec with a given hash, if and only if at the eviction a flight for it was under way on such a spec, or a call with such a spec had missed and not entered yet, for a known provider |
| IdentityRuns.EvictionIsUndoneExactlyByOlderCalls | lib/clusterproxy/workload_identity.go:82-87 | so it can come back at all if and only if there was such a flight or such a call |
| IdentityRuns.AsksExactlyWithoutAFlight | lib/clusterproxy/workload_identity.go:126-138 | a call that has missed the fast path can come to ask the provider if and only if it finds no flight when it enters; what the cache holds by then makes no difference |
| IdentityRuns.UndisturbedIsReplied | lib/clusterproxy/workload_identity.go:111-169 | a call that no other overlaps returns, and leaves in the cache, what the sequential function says |
| CacheLayers.InvalidationEmptiesBoth | lib/clustercache/cluster_cache.go:125-138 | after a 401 or 403 neither cache holds anything for the cluster; any other error leaves both alone |
| CacheLayers.InvalidationSparesTheOthers | lib/clustercache/cluster_cache.go:125-138 | clusters of another namespace or name keep their entries in both caches |
| InvalidationRaces.InvalidationIsUndoneExactlyFromBelow | lib/clustercache/cluster_cache.go:135-136 | with other calls between its two steps, invalidating leaves the rejected config in the cluster cache if and only if the cache underneath could still hand it out before the first, from its entry or from a flight that has not landed |
| CacheLayers.StaysOut | lib/clustercache/cluster_cache.go:125-138 | whatever calls for other clusters follow, the cluster stays out of both caches |
| CacheLayers.NextGetReachesTheProvider | lib/clustercache/cluster_cache.go:125-138 | so the next call for a push-mode workload-identity cluster returns what the provider answers now, an uncached build |
| CacheLayers.TimeLeftOnAReturnedConfig | lib/clustercache/cluster_cache.go:159-167 | after any calls: with a provider that gives usable tokens, the token behind a returned config has more than five minutes left if and only if the call missed the cluster cache, or the token the recording call got still has |
| CacheLayers.TimeLeftOnAMiss | lib/clusterproxy/workload_identity.go:126-169 | whatever the provider gives: after a miss it has if and only if the entry below was reused or the provider gave such a token |

## Left out

- CleanupEntries' `else` branches (`i < len` always holds there), logging and metric calls, the one-second poll and the context that ends a worker.
- Singleton creation (GetClient, GetManager) and the memory model under the mutexes: every critical section is one step.
- Applied: a forced server-side apply is modelled as a merge in which the manifest wins; pruning of fields an earlier apply of the same manager set, and field-level merging of the content, are not modelled.
- Applier.ApiServer: a dry run, a failed call or a rejected version never changes the store; a versioned patch of an object that does not exist may either fail or create it; finalizers are one nondeterministic step; owner-reference garbage collection is not modelled.
- Interleaving: one object that is never deleted; deletion and recreation of it while applies are pending are not modelled.
- The patcher that removes drift-exclusion fields, whose outcome is an input; YAML and JSON encoding, regular expressions for immutable-field errors (an error kind here), conflict messages, reports and diffs.
- ComputePolicyHash and SHA-256 are inputs, not computed.
- CleanupRuns.OwnedObjectsStay: does not cover writes by others than Sveltos, nor deletions judged on stale listings, because neither respects ownership; the latter are stated apart.
- QueueProgress.CanAlwaysDrain: says that the workers can always finish, not that a scheduler lets them; the bound in QueueProgress.DrainsWithinMeasure holds of every schedule.
- CacheCoherence.HitIsAnUncachedBuild: for a workload-identity cluster says only that the clients belong to the config, because what the config is depends on calls outside this cache; IdentityCoherence.SettledHitIsAnUncachedBuild says it.
- CacheCoherence: GetMapper and GetCachedDiscoveryClient take the lock twice; between the two a RemoveCluster can make them fail. They are stated for calls that no other call overlaps.
- Configs for a named administrator, token exchange with AWS, GCP and Azure, nil provider sections and temporary kubeconfig files.
- GetKubernetesClient, ResetMapper and InvalidateDiscoveryClient, which call what the cache returns.
- License checks, log settings, cluster listing and shard filters, the CRD watcher and generated code: single branches or data.
