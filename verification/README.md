# A verified model of the OTEL collector service provider

The service provider keeps one OpenTelemetry collector per `OtelCollectorService` running in the owner's managed
control plane (MCP). A reconciler reads the service object from the onboarding cluster, obtains access to the MCP
through access requests, installs a namespace, image pull secrets, a Deployment and a Service, and reports a status. On
deletion it removes the Deployment and the Service, gives its access up and drops its finalizer. Its settings come from
a `ProviderConfig` on the platform cluster, which a second controller watches and sends through a channel to a cached
pointer.

## How the model is built

`Machine.dfy` is the whole system as a step machine. A reconcile is broken at every API call: one controller step is one
call with the local computation up to the next one. A call can succeed, be rejected, or take effect and have its answer
lost. Between any two calls users and operators may do what the API server lets them do to the service object, the
control plane, the platform's secrets and the config; the access provider may move its requests on; the process may
restart, which loses the running reconcile and the cached config. Reconciles of one object are serial. A run is any
sequence of such events.

These results are about all runs from any initial state: coherence of the status, what a stored Ready rests on, the
bounds of observedGeneration, how long Terminating stays, the write frame and the users' data, other controllers'
finalizers, termination of deletion, what reconciles return and report, cluster access, selectors, detection of edits,
and the config cache. Two events break what the access contract promises: `StripFinalizer`, somebody else taking our
finalizer away, and `AccessTamper`, somebody else changing our access requests. A run without either is tame
(`AllTame`). Tame runs are assumed for orphans, where each of the two events leaves one
(`Orphans.StrippingLeavesOrphan`, `Orphans.TamperingLeavesOrphan`), for access with an object above it, which either event can take apart, for our own
finalizer going last, and for the corollaries `Observed.ObservedWhenTame` and `Observed.ObservedWithConfig`.
Convergence, recovery, idempotence and the pull loop are about inputs at rest or passes nothing disturbs, as their rows
say.

`Controller.dfy` is the code in its own form: a class whose methods make the calls one after the other, with its loops
and early returns, and that changes the clusters' state itself. Each method is proved to be the machine's run, call by
call (`Settled`, `Due`), so `Inherited` carries the machine's results over to the code. `Mutation.dfy` has the two
mutate closures on live objects, `ConfigWatch.dfy` both ends of the config channel, `Heap.dfy` the deep copies with
pointers, slices and maps as memory, and `Snapshot.dfy` the status writes in place.

The machine's assumptions about its environment are those of the interfaces it talks to. The access provider never
deletes a request from `Reconcile`, and never makes one from `ReconcileDelete`; a finished `Reconcile` means every
required request is granted, and a finished `ReconcileDelete` that all are gone or in deletion; an answer outside this
contract counts as an error. An update demands the version it was made from; a create needs its namespace and a free
name; a Deployment's selector must select its own pods and cannot be changed by users; an object in deletion takes no
new finalizers and goes with its last one; deletion and spec edits each count a generation; a status needs both
`observedGeneration` and `phase`. `Tame` events leave our finalizer and access requests to the controller.

## What turned out to be false, and exactly when it holds

- observedGeneration can exceed metadata.generation. A reconcile that finds no config patches the status of an object
  that carries no finalizer yet; if that object is deleted and made anew in between, the patch lands on the new one
  (`Observed.BoundCanFail`). Over every run the bound holds throughout if and only if every status patch that lands
  meets an object of at least the generation it was written for (`Observed.ObservedGeneration`). It does if nobody
  re-creates an object between a reconcile's last read and its patch; in tame runs it is enough to ask it of the
  patches made without a config (`Observed.ObservedWhenTame`).
- Ready can be stored on an incarnation nobody reconciled: strip the finalizer, delete and re-create the object, and the
  patch lands on the new one (`ReadyHome.ReadyCanGoAstray`). Over every run each stored Ready is on the incarnation its
  pass read if and only if no Ready patch is sent after another object has taken the name, from a snapshot whose version
  has not moved and whose status has another generation and another phase (`ReadyHome.ReadyAtHome`). That holds while
  nobody strips the finalizer during an install (`ReadyHome.ReadyOfThisIncarnation`). That the Ready was earned by some
  pass at that generation holds in any case (`ReadyRuns.ReadyIsEarned`).
- Terminating is overwritten if and only if a reconcile that finds no config gets its patch through
  (`Sticky.TerminatingIsSticky`): that branch runs before the check for deletion. It happens when the process restarts
  during a delete (`Sticky.TerminatingCanBeOverwritten`). This supposes that Terminating was stored on an object in
  deletion, which holds if and only if the status patch of a delete never lands on one that is not
  (`Sticky.HonestExactly`). It can: strip the finalizer during a delete and re-create the object
  (`Sticky.TerminatingCanGoAstray`).
- A reconcile that fails or has to wait says so in the status, but the server can refuse it: if the object was made anew
  between its two reads, the patch leaves out what the old status said already, and a status needs generation and phase.
  With the object as last read, the report is stored if and only if it is the incarnation first read, or that one said
  neither Progressing nor this generation (`Reports.EndReportedExactly`).
- The users' ConfigMap and Secret are theirs, and the cleanup leaves them intact (internal/resources/cleanup.go:12-13).
  The install does not: a config that lists the Secret's name as an image pull secret has the platform's data put under
  it (`Clash.UserSecretIsOverwritten`). Over every run the users' data stays as they made it if and only if no pull
  secret of that name is created, or updated with other data (`Clash.UntouchedExactly`).
- A delete can leave a Deployment and a Service behind, for two reasons: it looks in the namespace that spec and config
  resolve to now (`Orphans.OrphanCanBeLeft`), and it skips the cleanup when it finds its access requests gone or in
  deletion (`Orphans.TamperingLeavesOrphan`). A delete nobody interferes with that lets its object go leaves nothing if
  and only if nothing was made, or neither happens: the access requests are not in deletion when it starts and all that
  was made is in the namespace resolved (`Orphans.OrphansExactly`).
- The README of the repository says the digest changes when the ConfigMap or the Secret changes. The hashed bytes have
  no delimiters, so different data can have one digest (`Digest.NotInjective`). One edit of one entry is always seen,
  unless it adds or removes an entry that is empty, key included (`Digest.EditDetected`).
- A Deployment somebody else created under the well-known name with a selector of its own is refused on every pass,
  because the selector is kept and the labels are not (`Desired.UpdateAdmitted`).
- A delivery of a new config whose listing fails queues nothing. Every object is at all times queued or up to date with
  the cache if and only if no such delivery meets one that is neither (`ConfigCache.PromptExactly`). None is left behind
  without a reconcile to come if and only if no such delivery meets one that is not due to come back either
  (`ConfigCache.FollowedExactly`). Configs that poll leave none behind however many listings fail
  (`ConfigCache.PollingForgetsNone`); one that does not poll can (`ConfigCache.ListFailureForgets`). The case is not
  remote: the listing takes its kind from an empty object (cmd/service-provider-otel-collector/main.go:313-315), whose
  kind is empty, so `ListsSucceed`, which `ConfigCache.EveryObjectFollows` assumes, is not what that wiring delivers.
- A config with a poll interval of zero or less lets a service be forgotten, and only that
  (`Endings.ForgottenExactlyWithoutPolling`).

## Model

| member | source | states |
|---|---|---|
| Guard.NoAccessWithoutObject | pkg/spruntime/spreconciler.go:222-311 | over all tame runs a live access request has a service object with our finalizer above it |
| Guard.RunKeeps | pkg/spruntime/spreconciler.go:222-311 | the inductive core, for tame events: from installing to the end of the cleanup the finalizer is stored and all required access granted |
| NoOrphans.NothingOrphaned | pkg/spruntime/spreconciler.go:222-266 | over all tame runs in one namespace, a controller-made Deployment or Service has a finalized service object above it |
| Stable.NothingOrphaned | internal/controller/otelcollectorservice_controller.go:121-129 | the same for tame runs, and the write frame, from what is stored alone: every spec and config anyone stores resolve together to one namespace |
| NoOrphans.CleanupSound | internal/resources/cleanup.go:14-34 | the cleanup, call by call, reports done only when nothing made in its namespace is left, whatever failed before |
| Orphans.OrphansExactly | pkg/spruntime/spreconciler.go:227-265 | after any history, a delete from its first call on that lets the object go, whatever becomes of its calls but with nobody interfering, leaves no orphan if and only if nothing was made, or it did not find its access in deletion and all that was made is in the namespace it resolved |
| Orphans.OrphanCanBeLeft | internal/controller/otelcollectorservice_controller.go:111 | a complete run, from the start, whose namespace change leaves a Deployment behind |
| Orphans.TamperingLeavesOrphan | pkg/spruntime/spreconciler.go:232 | a complete run in which foreign deletion of the access requests skips the cleanup and leaves a Deployment behind |
| Orphans.StrippingLeavesOrphan | pkg/spruntime/spreconciler.go:261 | a complete run in which the finalizer is stripped and the object goes at once, its Deployment left behind |
| ReadyRuns.ReadyIsEarned | internal/controller/otelcollectorservice_controller.go:43-104 | over every run, whenever Ready is stored with generation g, one reconcile read the object at g, read every listed pull secret from the platform and put that very data, and saw or put namespace, ConfigMap, Secret, Service and the Deployment that spec, config and digest ask for |
| ReadyMeans.ReadyStandsOn | internal/controller/otelcollectorservice_controller.go:80-102 | the same setting by setting: the container's image is the spec's, else the config's, else the built-in one, with a colon and the version likewise; resources the spec's, else the config's, else none; pull secrets the config's list; namespace, digest annotation, labels, volume and Service spelled out |
| ReadyMeans.InPlaceAsAsked | internal/resources/deployment.go:25-166 | where an install is in place, that Deployment and that Service are what is stored under those names |
| ReadyMeans.EndsAsAsked | internal/controller/otelcollectorservice_controller.go:80-102 | after any history, one undisturbed pass on, they are what the control plane runs |
| ReadyHome.ReadyAtHome | pkg/spruntime/spreconciler.go:210-217 | over every run, each Ready ever stored is on the incarnation its pass read if and only if no Ready patch was sent, without a version and with all a status needs, after another object had taken the name |
| ReadyHome.ReadyOfThisIncarnation | pkg/spruntime/spreconciler.go:270-288 | while nobody strips the finalizer during an install, whatever becomes of it otherwise and of the access requests, every stored Ready is earned and on the incarnation its pass read |
| ReadyHome.ReadyCanGoAstray | pkg/spruntime/spreconciler.go:210-217 | a run with a stripped finalizer and no foreign access change that stores Ready on an incarnation nobody reconciled |
| ReadyRuns.EntriesAreTrue | pkg/spruntime/spreconciler.go:171-288 | every entry of the log that ReadyIsEarned speaks of was true of the clusters when it was written |
| ReadyRuns.CallRecords | internal/controller/otelcollectorservice_controller.go:52-102 | each stage of the install hands the next one only what is on record in the same reconcile, the platform secret in hand included |
| StatusRuns.StatusCoherent | pkg/spruntime/status.go:20-56 | over every run a persisted status has one Ready condition, true exactly in phase Ready, with one generation for both |
| StatusRuns.MergeWhole | pkg/spruntime/spreconciler.go:210-217 | a merge patch the schema admits leaves the whole new status or the stored one, never a mixture, even on another incarnation |
| StatusRuns.PatchResult | pkg/spruntime/spreconciler.go:210-217 | what a status patch does to the stored object, whether it lands or not |
| Reports.EndReported | pkg/spruntime/spreconciler.go:270-288 | over every run, when a createOrUpdate past the finalizer ends with access failed, access pending, the install failed, or prerequisites missing, its patch, whatever happens before it, changes nothing or leaves phase Progressing and a False Ready condition with the reason and message of that end, for the generation read |
| Reports.EndReportedUndisturbed | pkg/spruntime/spreconciler.go:278-286 | and that report is stored, for the object's generation, if the object is as last read, the incarnation first read, and the patch goes through |
| Reports.EndReportedExactly | pkg/spruntime/spreconciler.go:210-217 | with the object as last read and a patch that is let through, it is stored iff that is the incarnation first read, or the old one's status said neither Progressing nor this generation |
| Reports.CleanupReported | pkg/spruntime/spreconciler.go:242-243 | once the domain's Delete has ended, well or badly, and its patch goes through, Terminating is stored with its reason and message |
| Reports.MissingConfigReported | pkg/spruntime/spreconciler.go:180-183 | a reconcile without a config leaves word of it on the object if its patch goes through |
| Observed.ObservedGeneration | pkg/spruntime/status.go:20-56 | over every run the persisted observedGeneration stays within metadata.generation iff every status patch that lands meets an object of at least the generation it was written for, and then never goes back within an incarnation |
| Observed.ObservedWithoutReplacement | pkg/spruntime/spreconciler.go:171-218 | over every run it stays so if no object is re-created between a reconcile's last read and its patch |
| Observed.ObservedWhenTame | pkg/spruntime/spreconciler.go:180-183 | over tame runs it stays so iff the patches made without a config meet an object of at least the generation read |
| Observed.ObservedWithConfig | pkg/spruntime/spreconciler.go:171-218 | over tame runs it stays so, and never goes back, if every reconcile finds a config |
| Observed.BoundCanFail | pkg/spruntime/spreconciler.go:180-183 | from every initial state, a tame run in which observedGeneration exceeds metadata.generation |
| Observed.PatchStaysHome | pkg/spruntime/spreconciler.go:191-192 | a status patch after the object was read again, the finalizer holding it, reaches only the incarnation it read, at the same generation or later |
| Sticky.TerminatingIsSticky | pkg/spruntime/spreconciler.go:180-195 | over every run in which deletes have patched only objects in deletion so far, once Terminating, an incarnation stays so until it is gone, whatever happens, iff no reconcile without a config gets a status patch through to it |
| Sticky.TerminatingAfterTame | pkg/spruntime/spreconciler.go:180-195 | the same after every tame history |
| Sticky.HonestExactly | pkg/spruntime/spreconciler.go:242-243 | over every run, Terminating is stored on objects in deletion only iff no status patch of a delete lands on another one |
| Sticky.TerminatingCanGoAstray | pkg/spruntime/spreconciler.go:243 | a run with a stripped finalizer whose delete patches Terminating onto a new object, and a reconcile with a config overwrites it |
| Sticky.TerminatingCanBeOverwritten | pkg/spruntime/spreconciler.go:180-183 | a tame run in which Terminating is persisted and then overwritten by a reconcile without a config |
| Sticky.StaysWithConfig | pkg/spruntime/spreconciler.go:190-195 | it does stay so while every reconcile finds a config |
| Targets.WritesStayInside | internal/controller/otelcollectorservice_controller.go:121-129 | over every run the controller works only in namespaces that a stored spec and a stored config resolve to, and outside those, and in those outside the pull secrets a stored config lists, the Deployment and the Service, the control plane is what the users' edits alone made of it |
| FrameRuns.UserDataUntouched | internal/resources/cleanup.go:12-13 | over every run, in however many namespaces, the users' ConfigMap and Secret are never altered if no stored config lists a pull secret of the Secret's name |
| Clash.UntouchedExactly | internal/resources/imagepullsecret.go:15-49 | over every run the users' ConfigMaps and Secrets are at all times what their own edits made of them iff no accepted write creates a pull secret of the Secret's name or updates it with other data |
| Clash.UserSecretIsOverwritten | internal/resources/imagepullsecret.go:29-46 | whatever Secret the users have there, or none, a complete run in which a config listing its name puts the platform's data under it |
| Clash.PullSecretClash | internal/resources/imagepullsecret.go:29-46 | one accepted write of a pull secret changes the users' Secret exactly if it has that name and, for an update, other data |
| Frame.InstallFrame | internal/controller/otelcollectorservice_controller.go:52-100 | one call of the install adds at most the namespace and writes, never removes, one pull secret, the Deployment or the Service |
| Converge.PassConverges | internal/controller/otelcollectorservice_controller.go:52-102 | with inputs at rest, after any interrupted passes, the pass that gets through leaves the control plane at a target computed from the first state, which is a fixed point |
| Converge.CrashConsistent | internal/controller/otelcollectorservice_controller.go:52-102 | two histories from one state, interrupted differently, end in the same control plane |
| Converge.CallAdvances | internal/controller/otelcollectorservice_controller.go:52-102 | every call, however it ends, keeps that target and leaves what the next stage relies on |
| FaultFree.PassGetsThrough | pkg/spruntime/spreconciler.go:270-288 | with installable inputs, a pass nothing disturbs has everything in place after a bounded number of calls, from wherever it stands |
| Idempotence.CompletesInPlace | internal/controller/otelcollectorservice_controller.go:52-102 | what such a pass leaves behind is in place: synced, and the target of itself |
| Idempotence.SecondPassChangesNothing | pkg/spruntime/spreconciler.go:171-218 | any number of undisturbed reconciles of a Ready service in place leave control plane, finalizers and status unchanged but for the time of the last condition change |
| Recovery.BecomesReady | pkg/spruntime/spreconciler.go:171-208 | after every history, with inputs at rest and installable, the calls of one pass and of one more for each disturbance bring the service to where all is in place, the finalizer stored, and Ready stored for the object as it is |
| Recovery.ReadyInTheEnd | pkg/spruntime/spreconciler.go:171-218 | from the end of one undisturbed pass on, at every call, the control plane is the target computed from where it stood and the stored status says Ready |
| StatusWrites.ReadyPassIdempotent | internal/controller/otelcollectorservice_controller.go:47-102 | writing Progressing and then Ready over Ready at one generation moves only the time stamp, and always moves it |
| StatusWrites.WriteCoherent | pkg/spruntime/status.go:20-56 | each of the three status writes gives a coherent status of the object's generation |
| StatusWrites.SetConditionEffect | pkg/spruntime/status.go:21-27 | setting a condition replaces the one of its type, keeps its time exactly while the truth value stays, and never makes a second |
| StatusWrites.SetConditionFrame | pkg/spruntime/status.go:21-27 | conditions of other types are left alone |
| Deletion.DeletionTerminates | pkg/spruntime/spreconciler.go:222-266 | after every history, an incarnation in deletion and held by our finalizer is released after a budget of calls plus a fixed number per disturbance, and stays released |
| Deletion.PassDescends | pkg/spruntime/spreconciler.go:171-208 | every call brings its reconcile nearer to its end, whatever it returns |
| Deletion.CleanGoesOn | pkg/spruntime/spreconciler.go:222-266 | an undisturbed delete goes on with the object as stored, or releases it |
| Finalizers.OthersFinalizersKept | pkg/spruntime/spreconciler.go:260-265 | over every run each call leaves the stored object as it is but for status and our finalizer; if the object is gone, it was in deletion and ours was the last finalizer |
| Finalizers.OurFinalizerLast | pkg/spruntime/spreconciler.go:251-262 | over every tame run our finalizer goes only from an object in deletion with no access left |
| ClusterAccess.AccessFirst | pkg/spruntime/spreconciler.go:315-355 | over every run, a reconcile that installs or cleans up has itself had each call of clusters() succeed, the workload cluster's included where one is used |
| Endings.ReturnsExactly | pkg/spruntime/spreconciler.go:171-207 | over every run a reconcile that returns errs iff it had no config, a call or its answer failed, or a write was refused; it reports the object gone iff its read found none; else it is requeued after the delay asked for, else after the config's interval, else 60 seconds |
| Results.InstallReturns | pkg/spruntime/spreconciler.go:196-207 | however many undisturbed reconciles follow on any history, each returns without an error, requeued after the config's interval or 60 seconds |
| Results.DeleteReturns | pkg/spruntime/spreconciler.go:248-265 | an undisturbed delete lets its object go and returns the same way |
| Endings.NothingForgotten | pkg/spruntime/spreconciler.go:171-208 | with configs that poll, every reconcile of an object errs or is requeued after a positive delay |
| Endings.ForgottenExactlyWithoutPolling | api/v1alpha1/providerconfig_types.go:100-106 | a reconcile without error is not requeued exactly if no delay was asked for and its config does not poll |
| PullLoop.PullOutcome | internal/resources/imagepullsecret.go:15-49 | while nobody else changes the secrets, after the loop every listed name holds the platform's data; after a failure with the i-th in hand every name before it does; unlisted secrets never change |
| PullLoop.LoopOutcome | internal/resources/imagepullsecret.go:15-49 | the secrets after the loop are those of a fold over the list; after a failure at i those of i names, or of i + 1 if the failed call was a write whose answer got lost |
| PullLoop.PulledAt | internal/resources/imagepullsecret.go:31-46 | name by name, duplicates included, that fold sets data always and type and label only on creation |
| Selectors.SelectorsAreStable | internal/resources/deployment.go:41-51 | over any run a Deployment's selector stays what it is while the Deployment stays, and a controller-made one has the Service's selector, which its pods carry |
| Desired.FixedExactlyWhenMet | internal/resources/deployment.go:41-132 | the mutation leaves a Deployment alone exactly if it already is what the options ask for |
| Desired.MutationKeepsTheRest | internal/resources/deployment.go:44-60 | it keeps a selector that is there, other annotations and every other field |
| Desired.UpdateAdmitted | internal/resources/deployment.go:44-56 | the server admits the updated Deployment exactly if the kept selector selects the new labels |
| Desired.ServiceReachesPods | internal/resources/deployment.go:150-162 | the Service's selector finds the pods of a controller-made Deployment |
| Api.SpecBeforeConfig | internal/controller/otelcollectorservice_controller.go:121-156 | field by field, a service's own setting stands whatever the config, an open one is the config's, and one open in both is the built-in default |
| Digest.OrderIndependent | internal/resources/prerequisites.go:79-97 | whatever order the keys are enumerated in, sorting and writing feeds the hash the same bytes |
| Digest.SortedUnique | internal/resources/prerequisites.go:83-93 | a finite key set has one strictly sorted enumeration |
| Digest.EditDetected | internal/resources/prerequisites.go:76-99 | one edit of ConfigMap or Secret data changes the digest, for a hash that separates the two inputs, unless it rewrites the same value, drops an absent key, or adds or drops an entry with empty key and value, and only then |
| Digest.SameShapeDetected | internal/resources/prerequisites.go:84-97 | any number of value changes that keep keys and lengths change the bytes |
| Digest.NotInjective | internal/resources/prerequisites.go:84-87 | two different data sets with one digest |
| Digest.ComputeConfigHash | internal/resources/prerequisites.go:76-99 | the two collect, sort and write loops compute the hash of what the ConfigMap's keys in byte order spell, key before value, followed by what the Secret's spell |
| Digest.HashSpells | internal/resources/prerequisites.go:79-97 | the digest of two data sets is that hash, for any such spelling |
| Digest.LessIsPrecedes | internal/resources/prerequisites.go:83 | the sort is by the first byte that differs, a prefix coming first |
| Digest.ConfigMapFirst | internal/resources/prerequisites.go:84-87 | an entry whose key precedes all others puts key and value in front of the rest |
| Digest.SecretLast | internal/resources/prerequisites.go:94-97 | the Secret's bytes follow all of the ConfigMap's |
| Digest.OneEntryEach | internal/resources/prerequisites.go:76-99 | one entry each: the hash of key, value, key, value |
| Digest.WriteData | internal/resources/prerequisites.go:79-87 | one collect, sort and write loop appends that stream to the hash state |
| Detection.EditReachesPods | internal/resources/deployment.go:57-60 | of two Ready statuses of any one run whose passes read data one edit apart, the pod templates carry different digests iff the edit is visible, for a hash that separates the two inputs |
| Detection.NoEditNoRollout | internal/resources/deployment.go:55-130 | with the same spec, config and data read, the two pod templates are the same |
| ConfigCache.CacheAgrees | pkg/spruntime/pcreconciler.go:63-77 | over all interleavings work is pending or the cached config is what the platform publishes, gone and going both counting as none |
| ConfigCache.Settles | pkg/spruntime/pcreconciler.go:63-77 | once the platform rests, at most Work further steps are possible, and when none is the cache agrees |
| ConfigCache.CacheNeverTurnsBack | pkg/spruntime/spreconciler.go:366-373 | a step can empty the cache but never replace a config by an older one |
| ConfigCache.PromptExactly | pkg/spruntime/spreconciler.go:374-389 | over every run each object is queued or was last reconciled with the cached config, at all times, iff no delivery whose listing fails meets one neither queued nor holding that very config |
| ConfigCache.FollowedExactly | pkg/spruntime/spreconciler.go:201-207 | and none is left without a reconcile to come while behind the cache iff no such delivery meets one that is not coming back after an error, a delay or its poll interval either |
| ConfigCache.PollingForgetsNone | pkg/spruntime/spreconciler.go:204-207 | with configs that poll every object is queued or coming back at all times, however many listings fail |
| ConfigCache.EveryObjectFollows | pkg/spruntime/spreconciler.go:374-389 | while listings succeed, when nothing is pending or queued every object was last reconciled with the config the platform publishes |
| ConfigCache.ListFailureForgets | pkg/spruntime/spreconciler.go:375-380 | for every config that does not poll, a run in which one failed listing leaves an object on it with nothing queued, pending or coming back |
| ConfigWatch.PCReconciler.Reconcile | pkg/spruntime/pcreconciler.go:63-77 | sends the message, and returns the error, of the cache machine's Take and Send |
| ConfigWatch.Receiver.OnConfigUpdate | pkg/spruntime/spreconciler.go:365-390 | stores the config and returns one request per listed object in order, as the cache machine's Receive |
| Heap.OtelCollectorService.DeepCopy | api/v1alpha1/zz_generated.deepcopy.go:23-30 | an equal object, field by field, none of whose memory existed before |
| Heap.OtelCollectorService.DeepCopyInto | api/v1alpha1/zz_generated.deepcopy.go:14-20 | metadata with its finalizers in order, spec and status, field by field, in fresh slices and pointers, nil where they were nil |
| Heap.CopySpec | api/v1alpha1/zz_generated.deepcopy.go:73-95 | each of the spec's pointers, resource maps included, is copied, nil for nil |
| Heap.CopyStatus | api/v1alpha1/zz_generated.deepcopy.go:108-117 | the conditions are copied into an array of exactly their length |
| Heap.ProviderConfig.DeepCopy | api/v1alpha1/zz_generated.deepcopy.go:139-146 | an equal config, field by field, none of whose memory existed before |
| Heap.CopyConfig | api/v1alpha1/zz_generated.deepcopy.go:189-221 | each of the config's pointers, slice and resource maps is copied, nil for nil |
| Snapshot.SetStatusCondition | pkg/spruntime/status.go:21-27 | in place, overwriting the condition of that type or appending into spare room, it does what SetCondition says and keeps the array if the type was there |
| Snapshot.Apply | pkg/spruntime/status.go:20-56 | the three status functions in place give the three status writes |
| Snapshot.WriteAndPatch | pkg/spruntime/spreconciler.go:178-217 | whatever is written on the live object, the snapshot keeps what was read, and a patch is issued iff the status differs from it |
| Snapshot.UpdateStatus | pkg/spruntime/spreconciler.go:210-217 | a patch is issued exactly when the two statuses differ |
| Snapshot.SnapshotSurvives | pkg/spruntime/spreconciler.go:178 | nothing done to memory the live object reaches shows in the snapshot |
| Snapshot.SharedSliceHides | pkg/spruntime/spreconciler.go:178 | a snapshot sharing the conditions slice would lose the change |
| Isolation.ReconcileOnCopy | pkg/spruntime/spreconciler.go:185-192 | whatever the domain does to its config copy, its object and through the resources pointer, the cached config is unchanged |
| Isolation.ResolveOwned | internal/controller/otelcollectorservice_controller.go:151-156 | the resolved resources are the spec's or the config's, by value and as memory owned by one of them |
| Isolation.WriteThrough | internal/controller/otelcollectorservice_controller.go:151-156 | without the copy a write through that pointer changes the cache |
| Mutation.LiveDeployment.Mutate | internal/resources/deployment.go:41-132 | the field assignments in place amount to MutateDeployment, selector and other annotations kept |
| Mutation.LiveService.Mutate | internal/resources/deployment.go:150-164 | the field assignments in place amount to MutateService |
| Mutation.MutatedDeployment | internal/resources/deployment.go:41-132 | the mutated Deployment is what the options ask for |
| Mutation.MutatedService | internal/resources/deployment.go:150-164 | the mutated Service is the one wanted |
| Controller.SPReconciler.Reconcile | pkg/spruntime/spreconciler.go:171-208 | one reconcile is a run of the machine from idle to idle and returns what the machine records |
| Controller.SPReconciler.ReportMissingConfig | pkg/spruntime/spreconciler.go:180-183 | the branch without a config is the machine's |
| Controller.SPReconciler.Delete | pkg/spruntime/spreconciler.go:222-266 | delete, with all its early returns, is the machine's |
| Controller.SPReconciler.AccessRequestsInDeletion | pkg/spruntime/spreconciler.go:293-311 | an error, or the machine goes on to the release or to the cleanup |
| Controller.SPReconciler.DomainDelete | internal/controller/otelcollectorservice_controller.go:107-119 | Terminating, cleanup and status patch, then an error or the release |
| Controller.SPReconciler.DeleteManagedResources | internal/resources/cleanup.go:14-34 | the two get-and-delete stages are the machine's cleanup |
| Controller.SPReconciler.Release | pkg/spruntime/spreconciler.go:248-265 | giving up access and dropping the finalizer are the machine's |
| Controller.SPReconciler.CreateOrUpdateObject | pkg/spruntime/spreconciler.go:270-288 | finalizer, access and install with their status writes are the machine's |
| Controller.SPReconciler.EnsureFinalizer | pkg/spruntime/spreconciler.go:271-276 | read again, add the finalizer if it is missing, refuse to create |
| Controller.SPReconciler.Clusters | pkg/spruntime/spreconciler.go:315-355 | each failure, wait and lookup of the access stage is the machine's |
| Controller.SPReconciler.CloseReconcile | pkg/spruntime/spreconciler.go:192-207 | patch the status if it changed, then return error, delay or poll interval |
| Controller.SPReconciler.CreateOrUpdate | internal/controller/otelcollectorservice_controller.go:43-104 | the staged install is the machine's, up to Ready or waiting |
| Controller.SPReconciler.ReconcileNamespace | internal/resources/namespace.go:13-24 | get, then create if missing |
| Controller.SPReconciler.ReconcileImagePullSecrets | internal/resources/imagepullsecret.go:15-49 | the loop over the list is the machine's, ending at the prerequisites or in an error |
| Controller.SPReconciler.CheckPrerequisites | internal/resources/prerequisites.go:24-72 | the digest of what was found, or the message to wait with, or an error |
| Controller.SPReconciler.ReconcileDeployment | internal/resources/deployment.go:25-134 | get, mutate, then create, update or leave alone |
| Controller.SPReconciler.ReconcileService | internal/resources/deployment.go:137-166 | get, mutate, then create, update or leave alone |
| Controller.Returns | pkg/spruntime/spreconciler.go:171-208 | what Reconcile returns, in the code: an error, a missing object, or a requeue and when, by what its calls met |
| Controller.Inherited | pkg/spruntime/spreconciler.go:171-288 | at every call of the code the status is coherent, Ready is earned setting by setting, and the writes stay inside the resolved namespaces; Ready is on its incarnation iff none strayed, as while nobody strips the finalizer during an install; in tame runs access has its object, and in a stable namespace nothing is orphaned |

## Left out

- Server-side defaulting, asynchronous garbage collection and namespace termination, pod rollout and probes: deleting a
  Deployment or Service removes it at once, and an unchanged mutation is not sent.
- The container's constant fields (command, ports, probes, mounts, environment from the Secret): they are assigned
  constants on every pass. `rest` stands for what the mutation does not assign.
- ConfigMap.BinaryData: the code does not hash it.
- SHA-256 (section 6.2 of FIPS 180-4) and hexadecimal output: an uninterpreted function; where needed the hypothesis
  says that it separates the two inputs compared.
- Digest.EditDetected: one edit at a time, because the stream has no delimiters; `SameShapeDetected` and `NotInjective`
  mark how far more edits can be seen.
- NoOrphans.NothingOrphaned: assumes a stable namespace and that only the controller takes away its finalizer and access
  requests; the three runs in `Orphans` show that each of the three is needed.
- ConfigCache.FollowedExactly: whether a reconcile fails or is asked to come back is a choice of its `Load` event, not
  computed from `Machine`; without a config it always fails, and otherwise the poll interval brings it back.
- Resource versions: two equal values count as the same version, so the model admits updates after a change and its
  undoing that a server would refuse. A status patch counts as carrying a version if the object was read again or
  changed since the snapshot.
- Controller.SPReconciler.Reconcile: works on values in its locals and is not itself cut short by a restart; restarts
  are events of the machine, and memory is the subject of `Heap`, `Snapshot` and `Isolation`.
- Access secret keys (`retrieveSecretKey`) and cluster clients: the domain does not read the keys. A lookup that returns
  nothing without an error is modelled for the two cluster lookups only.
- The access provider's own reconciler: an environment held to the comments of its interface.
- Quoting in messages (`%q`) is that of names without special characters; the time of a call is a parameter of the
  call.
- Flags, scheme registration, permissions, process startup, list types' deep copies, CRD manifests: wiring and repeats.
- Leader election, work queues and back-off: reconciles of one object are serial and a failed one may run again.
