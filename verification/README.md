# tenantplane: a verified model of the sync engine

tenantplane projects the objects of a tenant's virtual control plane onto a host
cluster and keeps the two sides from drifting. This project models the parts that
decide what is written where, and proves what they promise.

* **Naming** (`Naming.dfy`, `Fnv.dfy`, `HostNames.dfy`): label text, the 32-bit
  FNV-1a hash with its wrap-around, and bounded host names.
* **Objects and transformations** (`Objects.dfy`, `Pods.dfy`, `Transform.dfy`,
  `FieldLaws.dfy`, `TransformOps.dfy`): JSON trees below typed metadata; strip,
  build, adopt, merge, compare, look back, as functions with laws, told field by
  field in Kubernetes' own names, and as in-place operations with their loops that
  are proved equal to those functions.
* **The world** (`Cluster.dfy`, `Engine.dfy`): two API servers with optimistic
  concurrency, fresh versions and a log of everything ever written. A script says
  what the world does around each API call: arbitrary foreign edits on both sides
  just before it, a call that fails before or after it took effect, and the values
  the server's allocator picks. An audit keeps every attempted write with what it
  met and what the tenant held at that moment. All runs are all scripts, and all orders in which
  the servers may list (`Answered`; `Syncer.SyncEngine.SyncPass` shows that there
  always is one).
* **The engine** (`Syncer.dfy`, `TenantSync.dfy`, `DecisionLog.dfy`): the classes
  that update history, limiter, recorder, servers and the durable record in place,
  each method proved equal to the specification on values.
* **What is reported** (`DecisionLaws.dfy`, `PassLaws.dfy`, `RunLaws.dfy`): what each
  decision claims, that passes send what they report and report what they send, and
  what a run leaves in history, error and record, whatever call fails.
* **Theorems over runs** (`Safety.dfy`, `PassSafety.dfy`, `SyncRun.dfy`,
  `StaleRecords.dfy`, `Baselines.dfy`, `Orphans.dfy`, `OrphanRaces.dfy`,
  `SiblingTenants.dfy`, `Standoff.dfy`, `StandoffRuns.dfy`, `Conservation.dfy`): what every step keeps under any interleaving.
* **Theorems over calm worlds** (`Calm.dfy`, `CalmPass.dfy`, `Convergence.dfy`, `RunConvergence.dfy`,
  `ToHostPass.dfy`, `Drift.dfy`, `ManualPass.dfy`, `PodDrift.dfy`, `PodPush.dfy`): what passes
  achieve when no one else writes and no call fails, for any list order and any
  allocated values.
* **Teardown** (`Teardown.dfy`, `TeardownRaces.dfy`, `TeardownLiveness.dfy`,
  `ReconcilerOps.dfy`): the control-plane namespace under its finalizer, with many
  tenants' workers interleaved and reads that may be stale.

## What the code needs, and where its comments are wrong

* A tenant and its host namespace must be legal labels already (`WellNamed`).
  Provenance compares the raw tenant name with the sanitized label, so otherwise
  every mirror looks like someone else's; `Transform.BuildReverts` is exact. The
  selector of garbage collection compares sanitized labels only: a tenant "a.b"
  deletes the mirrors of a well-named "a-b" in its namespace. Of the objects it has
  listed, a tenant removes only its own if and only if no other there sanitizes to
  the same label (`SiblingTenants.DeletionsStayWithinTenantIff`). What took a listed
  object's place since may be anyone's (`SiblingTenants.CrossDeletionsAreReplacements`):
  as host names collide, even a well-named tenant may lose a true mirror that way
  (`SiblingTenants.WellNamedTenantLosesItsMirror`).
* A Service must have a `spec`. Without one, a push lets it adopt the live
  object's addresses and the pair never agrees; `Transform.PushAgrees` is exact.
* The remark at internal/syncer/engine.go:357-358, that a pair cannot disagree
  while neither side has moved, holds for every kind but Pod (and a Service
  without a spec) (`Baselines.UnchangedPairAgrees`, `Baselines.HeldMeansBothMoved`). It fails for
  Pods: a tracked push keeps the live spec but for four fields and still records a
  baseline. The two agree afterwards exactly when their specs were reconcilable
  (`PodPush.PushedPodAgreesOrIsHeld`); a Pod the host has scheduled is not
  (`PodDrift.UnchangedPodsMayDisagree`, `PodDrift.ScheduledPodsAreUnpushable`).
* History is keyed by host name only. An entry left by another kind of the same
  host name can only make a pair look changed on both sides
  (`Baselines.OtherKindLooksChanged`). The results over runs hold for all kinds
  together, standoffs included (`StandoffRuns.StandoffLastsOverRuns`); those over
  calm passes follow one resource.
* The record of the history is read through a cache. An old version costs no
  safety, for every version is truthful (`SyncRun.EveryRunIsSafe`), but the record
  then holds what that version held and what the sync set, and no more
  (`StaleRecords.RecordIsLoadedPlusSet`).
* internal/syncplan/plan.go:63-65 calls short names injective. They are not: three
  ways to group four labels give one name (`HostNames.ShortNamesCanCollide`). No
  other triple of labels has a short name of labels if and only if its base can be
  cut in one way only (`HostNames.ShortNameIsAlone`); it reads back to its own parts if and
  only if the first two are splittable (`HostNames.ShortNamesDecode`). Names that
  are no labels are worse off: a dot reads like a dash
  (`HostNames.DottedNamesCollide`).
* Of the remark on control-plane names at internal/controller/namespace.go:29-32,
  the example is right for labels on short names: two tenants of one name in
  different namespaces do not collide (`TeardownRaces.SameNameTenantsDiffer`). The
  word collision-safe is not: two tenants of different names may
  (`TeardownRaces.ControlPlaneNamesCollide`). No other short tenant has a name if
  and only if its base can be cut in one way behind "cp"
  (`TeardownRaces.ControlPlaneNameIsAlone`).
* The collector's delete carries no version. An object that replaced a listed
  orphan in between is deleted with or without the labels
  (`Orphans.DeleteTakesWhatItMeets`, `Orphans.DeletedIsListedIffUnchanged`). And
  the names in use are those of the tenant's list: an object re-created behind it
  loses its standing mirror while it is live (`OrphanRaces.RecreationIsReachable`).
  Only names that came into use after the list can be hit
  (`Orphans.DeletedNameWasTakenSince`).
* The namespace delete of teardown names the namespace only. Between the read and
  the delete it stays the tenant's own if and only if it does not disappear
  (`TeardownRaces.DeleteHitsOwnIffNeverGone`). If it does, whatever has taken the
  name is deleted: a stranger's namespace (`TeardownRaces.DeleteMayHitAStranger`)
  or, where names collide, another tenant's, in honest steps from an empty cluster
  (`TeardownRaces.HonestRunsCanDeleteAnothersNamespace`).
* Teardown reads through the manager's cached client (cmd/manager/main.go:63-64).
  When an answer lets go of the finalizer, the namespace is left behind if and only
  if the tenant owned it at the read and it does not disappear before the release
  (`TeardownRaces.NamespaceOutlivesFinalizerIff`), as after an answer from before it
  was created (`TeardownRaces.StaleReadLeavesNamespaceBehind`). The same goes for the
  TenantCluster: a cache that shows a finalizer already released brings a namespace
  into being that nobody will delete (`TeardownRaces.StaleBeginLeavesNamespaceIff`).
* The comments at internal/syncer/engine.go:23-26 and :167-170 and in
  docs/design.md:96 predate the other directions and the history.

## Model

| member | source | states |
|---|---|---|
| `Naming.SanitizeName` | internal/syncplan/plan.go:82-111 | the loop with its builder and lastDash flag computes the specified text |
| `Naming.SanitizedIsLabel` | internal/syncplan/plan.go:82-111 | for every input the result is a legal label: not empty, letters, digits and dashes, no leading, trailing or doubled dash (section 2.1 of RFC 1123) |
| `Naming.SanitizeFixpoint` | internal/syncplan/plan.go:82-111 | the inputs left unchanged are exactly the legal labels |
| `Naming.SanitizeIdempotent` | internal/syncplan/plan.go:82-111 | sanitizing twice is sanitizing once |
| `Naming.SanitizeKeepsWords` | internal/syncplan/plan.go:82-111 | the ASCII letters of either case and the digits survive, in small letters and in order, with one dash exactly where something else stood between two of them; only an input with none of them gives "x" |
| `Fnv.ComputeFnv32` | internal/syncplan/plan.go:113-122 | the loop computes the fold over the bytes, rendered as eight hex digits |
| `Fnv.PrimeIsInvertible` | internal/syncplan/plan.go:115-119 | multiplying by 16777619 modulo 2^32 is undone by multiplying by 899433627 |
| `Fnv.FoldIsBijective` | internal/syncplan/plan.go:117-120 | for every suffix the fold is a bijection on 32-bit states |
| `Fnv.OneByteSeparates` | internal/syncplan/plan.go:113-122 | texts that differ in exactly one byte never hash alike |
| `Fnv.XorBits` | internal/syncplan/plan.go:117-119 | the mixing of a byte is exclusive or: each binary digit of the result is 1 exactly where the two differ |
| `Fnv.PublishedValues` | internal/syncplan/plan.go:113-122 | the eight small hex digits read back as the hash of the text, and for the empty text and "a" they are the published values of 32-bit FNV-1a |
| `HostNames.HostNameIsLabel` | internal/syncplan/plan.go:70-80 | every host name is a legal label of at most 63 bytes, short or hashed (section 2.3.4 of RFC 1035) |
| `HostNames.HostNameReads` | internal/syncplan/plan.go:70-80 | name, namespace and tenant joined by "-x-" and sanitized stay whole up to 63 bytes; else their first 54 bytes, or 53 before a dash, are followed by a dash and the eight digits of the hash of the whole |
| `HostNames.ExplainNamesFirstMissing` | internal/syncplan/plan.go:31-61 | a reference is refused exactly when a field is empty, for the first such field; else the target is the sanitized namespace and the host name |
| `HostNames.OneByteNamesDiffer` | internal/syncplan/plan.go:73-79 | over-long bases that differ in one byte keep different host names |
| `HostNames.ShortNamesDecode` | internal/syncplan/plan.go:63-75 | a short host name of labels reads back to its three parts if and only if no "-x-" arises inside or at the end of the first two |
| `HostNames.ShortNamesInjective` | internal/syncplan/plan.go:63-75 | a short host name whose base has one cut belongs to no other short triple of labels |
| `HostNames.ShortNameIsAlone` | internal/syncplan/plan.go:63-75 | and exactly then: no other short triple of labels has the name if and only if the base can be cut in one way |
| `HostNames.SplittableNamesInjective` | internal/syncplan/plan.go:63-75 | among splittable labels short names never collide |
| `HostNames.LastPartIsTold` | internal/syncplan/plan.go:63-75 | short names tell the last part apart when the other two are the same |
| `HostNames.ShortNamesCanCollide` | internal/syncplan/plan.go:63-67 | against the comment: the three ways to group four labels, over either separator, are different triples of labels with one name |
| `HostNames.DottedNamesCollide` | internal/syncplan/plan.go:70-100 | sanitizing makes a dot and a dash alike, so two names that differ there share a host name |
| `Transform.StripIdempotent` | internal/syncplan/transform.go:113-130 | stripping twice is stripping once |
| `Transform.StripForgetsAllocation` | internal/syncplan/transform.go:100-130 | stripping forgets exactly what an allocator may fill in, addresses and nodePorts |
| `Transform.BuildReverts` | internal/syncplan/transform.go:257-274 | looking back at a built object gives the reference it was built for, for any own labels and any name length, exactly when tenant and namespace are labels and the kind matches; name and namespace are those Explain predicts |
| `FieldLaws.StripFieldByField` | internal/syncplan/transform.go:100-130 | exactly clusterIP, clusterIPs, healthCheckNodePort, ipFamilies, ipFamilyPolicy and the nodePort of each port go, and only from a Service |
| `FieldLaws.BuildFieldByField` | internal/syncplan/transform.go:28-98 | building fails exactly for an incomplete reference; else name, namespace, four labels and two annotations have the values named, resourceVersion and nine more metadata fields, status and a Service's addresses and nodePorts are gone, and every other label, annotation, metadata field, spec field and top-level field is the tenant's |
| `FieldLaws.AdoptFieldByField` | internal/syncplan/transform.go:132-158 | before an update a Service takes over each of the five addresses that the live one has and nothing else; any other kind but Pod takes over nothing |
| `FieldLaws.PushedServiceAddresses` | internal/syncplan/transform.go:76-158 | over build and adopt: a pushed Service has the live addresses where there are any and none where there are not, never the tenant's own; every other field is the tenant's |
| `FieldLaws.ContentFieldByField` | internal/syncplan/transform.go:276-306 | two objects are equal in content exactly when they have the same top-level fields but for apiVersion, kind, metadata and status, two Services with specs compared field by field but for the five addresses and the nodePorts |
| `FieldLaws.MergeFieldByField` | internal/syncplan/transform.go:308-328 | merging keeps metadata, apiVersion, kind and status of the tenant's object and takes every other field, present or absent, from the host's, a Service's addresses and nodePorts left out |
| `Transform.BuiltContent` | internal/syncplan/transform.go:76-98 | the built object agrees in content with the tenant's |
| `Transform.AdoptedContent` | internal/syncplan/transform.go:138-158 | adopting leaves content alone if and only if the object has a spec, is no Service, or there is nothing to adopt |
| `Transform.PushAgrees` | internal/syncplan/transform.go:132-158 | build, adopt, write and allocate give a host object that agrees with the tenant's, exactly under that condition, for every kind but Pod |
| `Transform.PullAgrees` | internal/syncplan/transform.go:308-328 | the merged tenant object agrees with the host's and keeps metadata and kind, whatever the tenant's allocator fills in |
| `Transform.MergedHeader` | internal/syncplan/transform.go:317-328 | merging keeps the tenant's header and takes all content, stripped, from the host |
| `Transform.MergeIdempotent` | internal/syncplan/transform.go:317-328 | merging again changes nothing |
| `Pods.OverlayImages` | internal/syncplan/transform.go:200-230 | the two loops compute the overlay |
| `Pods.AppendTolerations` | internal/syncplan/transform.go:235-250 | the nested loops compute the merged tolerations |
| `Pods.LastImageWins` | internal/syncplan/transform.go:201-214 | the image wanted for a name is the one the last container of that name gives |
| `Pods.OverlayTouchesImagesOnly` | internal/syncplan/transform.go:196-230 | containers keep number, order, names and every field but the image, and take the wanted image; doing it twice changes no more |
| `Pods.MergeTolerationsLaws` | internal/syncplan/transform.go:232-250 | the running list stays in front, exactly the missing ones follow, and merging again adds nothing |
| `Pods.MergeTolerationsCounts` | internal/syncplan/transform.go:232-250 | how often each toleration occurs in the result, duplicates included |
| `Pods.AdoptSpecByField` | internal/syncplan/transform.go:160-194 | each field of the adopted spec by itself: images overlaid on both container lists the live spec has, an integer deadline taken over, tolerations merged, and every other field the live one's |
| `Pods.AdoptPodTouchesMutableFieldsOnly` | internal/syncplan/transform.go:160-194 | the adopted spec differs from the live one in images, deadline and added tolerations only; adopting twice equals once |
| `TransformOps.MergeMap` | internal/syncplan/transform.go:332-340 | the loop overlays one map on the other |
| `TransformOps.Unstructured.StripHostAllocatedSpecFields` | internal/syncplan/transform.go:113-130 | the in-place loops strip as specified: of a Service the five named addresses and the nodePorts and nothing else, of other kinds nothing |
| `TransformOps.Unstructured.BuildHostObject` | internal/syncplan/transform.go:76-98 | the result is a fresh object built as told field by field in FieldLaws, a nil input or an incomplete reference is refused, and the input is never mutated |
| `TransformOps.Unstructured.AdoptHostAllocatedFields` | internal/syncplan/transform.go:138-148 | only the desired object is changed, as specified; nil on either side is a no-op |
| `TransformOps.Unstructured.AdoptServiceFields` | internal/syncplan/transform.go:150-158 | setting the fields one by one adopts exactly those of the five named addresses that the live object has |
| `TransformOps.Unstructured.AdoptPodFields` | internal/syncplan/transform.go:168-194 | the stepwise update of the live spec is the specified adoption |
| `TransformOps.Unstructured.CompareContent` | internal/syncplan/transform.go:301-306 | comparison on stripped copies decides equality of every field that counts, by name, and touches neither side |
| `TransformOps.Unstructured.MergeContent` | internal/syncplan/transform.go:317-328 | deleting and setting fields one by one on a copy leaves metadata, apiVersion, kind and status the tenant's and makes every other field the host's |
| `Syncer.SyncEngine.RateLimited` | internal/syncer/engine.go:418-424 | a grant is spent or the write is refused with nothing changed |
| `Syncer.SyncEngine.SetConverged` | internal/syncer/engine.go:369-374 | one entry of the history is replaced |
| `Syncer.SyncEngine.PushToHost` | internal/syncer/engine.go:380-394 | the push is the specified rate-limited, version-checked write with its baseline |
| `Syncer.SyncEngine.PullToTenant` | internal/syncer/engine.go:400-412 | likewise the pull |
| `Syncer.SyncEngine.ReconcileBidirectionalConflict` | internal/syncer/engine.go:338-362 | the conflict switch acts as the verdict on the pair says |
| `Syncer.SyncEngine.ReconcilePair` | internal/syncer/engine.go:252-313 | reading, judging and acting on one pair is the specified reconcile; its decision is about this pair and reports exactly the request sent; unless the resource is bidirectional the history is left as it was |
| `Syncer.SyncEngine.RunPairs` | internal/syncer/engine.go:195-226 | the loop grows decisions, errors, desired names and the recorder as specified |
| `Syncer.SyncEngine.CollectOrphans` | internal/syncer/engine.go:438-475 | listing and deleting what is not desired is the specified collection |
| `Syncer.SyncEngine.SyncPass` | internal/syncer/engine.go:184-238 | a pass refines the pass on values for the orders the servers returned, keeps the invariant, and hands the recorder exactly the returned decisions in order; without error these report exactly the requests sent; only a bidirectional one touches the history |
| `DecisionLaws.DesiredFieldByField` | internal/syncer/engine.go:204-216 | when there is a host object to want, and what it is: the built one under the resource's version and kind, and a Pod with the required class, whatever the tenant asked for, and every other field as it was |
| `DecisionLaws.VerdictIsClaimed` | internal/syncer/engine.go:252-362 | what is decided for a pair is right: the reason given is the one whose claim about marks, contents, policy and moved versions holds of the tenant object, the host object met and the baseline |
| `DecisionLaws.ReconcileTells` | internal/syncer/engine.go:252-412 | in any interleaving a pair's turn does what goes with that reason: the one request sent, field by field, the decision if it was heard to be accepted and the error otherwise, and a baseline of the two standing versions for bidirectional resources only |
| `PassLaws.PairTells` | internal/syncer/engine.go:47-60 | each decision is about its pair, and is a Skip with nothing sent or reports the one request that was sent and accepted |
| `PassLaws.OrphanIsCollected` | internal/syncer/engine.go:453-473 | one request for each orphan: deleted or found gone, as whenever the call is served, it gives a Delete, any other reply an error; without a grant a Skip and nothing sent |
| `PassLaws.PassTells` | internal/syncer/engine.go:184-238 | a pass without error gives one decision for each projectable object listed and then one for each labelled host object that is no mirror of theirs, in the order of the lists, and what it sent is exactly what these decisions report, in their order |
| `PassLaws.PassCoversExactly` | internal/syncer/engine.go:184-238 | and these are exactly the objects that the tenant held when asked, and the host objects in its namespace that then carried the three labels, whatever the order of the lists |
| `PassLaws.PassReportsErrors` | internal/syncer/engine.go:184-238 | a pass that cannot list the tenant does nothing, one that cannot list the host deletes nothing, and the error of a pass holds every single error there was, in order |
| `PassLaws.PassWritesProjectable` | internal/syncer/engine.go:87-95 | in any interleaving a pass writes nothing for an object in kube-system, kube-public or kube-node-lease, unless those are overridden, nor for the objects that every API server makes for itself |
| `PassLaws.OneWayPairKeepsHistory` | internal/syncer/engine.go:297-311 | a resource that flows one way leaves every baseline as it was, whatever call fails |
| `PassLaws.OneWayPassKeepsHistory` | internal/syncer/engine.go:184-238 | so does a whole pass, so that a kind with the same host names cannot spoil a baseline |
| `Safety.ReconcileKeepsInv` | internal/syncer/engine.go:252-412 | one pair keeps history truthful and every write safe, however stale the tenant object and whoever writes in between |
| `Safety.ManualGuard` | internal/syncer/engine.go:347-359 | with a truthful history the version comparison is enough to lose no update |
| `PassSafety.SyncPassKeepsInv` | internal/syncer/engine.go:184-238 | a whole pass does, with any interleaving, fault and list order |
| `SyncRun.EveryRunIsSafe` | internal/controller/sync.go:80-121 | over every run of runSync calls and foreign edits, however old the record each loads, the history in memory and every version on record are truthful and every accepted write was safe; a recorded pair stays on record unless a sync loads a version that lacks it |
| `StaleRecords.RecordReplaces` | internal/controller/sync_decisions.go:86-93 | a recording replaces the recorded history by the engine's, under any interleaving |
| `StaleRecords.RecordIsLoadedPlusSet` | internal/controller/sync_decisions.go:23-93 | a sync that records leaves on record what the version it loaded held and what it set itself, whichever version its cache had seen |
| `StaleRecords.StaleLoadForgets` | internal/controller/sync_decisions.go:23-37 | against a record that only grows: of the pairs on record such a sync keeps exactly those that the loaded version has, and the one it made |
| `SyncRun.ManualLosesNoUpdate` | internal/syncer/engine.go:315-374 | under "manual" a push or pull overwrote the exact version last agreed, whose content the other side once held under the same identity |
| `SyncRun.RuntimeClassOverRuns` | internal/syncer/engine.go:211-216 | over every run, a managed host Pod has the required runtime class unless someone else once put one without it at that very key; what the engine creates has it, and no pulled tenant Pod carries one |
| `Baselines.UnchangedPairAgrees` | internal/syncer/engine.go:347-358 | a pair that stands at the two versions on record agrees, for every kind but Pod and a Service without a spec |
| `Baselines.HeldMeansBothMoved` | internal/syncer/engine.go:347-361 | a disagreeing pair is held under "manual" if and only if there is no baseline or both sides moved since |
| `Baselines.OtherKindLooksChanged` | internal/syncer/engine.go:347-361 | a baseline left by another kind under the same host name makes the pair look changed on both sides, so it is held |
| `PodPush.AdoptSettlesIff` | internal/syncplan/transform.go:160-250 | adoption gives back the wanted spec if and only if it differs from the running one in same-named images, the deadline and tolerations appended to the running list at most |
| `PodPush.PodPushAgreesIff` | internal/syncplan/transform.go:160-194 | a push to a running Pod makes the two agree exactly then, the required class apart |
| `PodPush.PushedPodAgreesOrIsHeld` | internal/syncer/engine.go:357-358 | after a tracked push the baseline names the two standing versions, and "manual" finds the Pods agreed exactly then and holds them otherwise |
| `PodDrift.UnchangedPodsMayDisagree` | internal/syncer/engine.go:357-358 | against the remark: one field that no push touches is enough, and the situation repeats |
| `PodDrift.ScheduledPodsAreUnpushable` | internal/syncplan/transform.go:160-194 | every mirrored Pod is such a case once the host has scheduled it |
| `Orphans.PassSparesLiveNames` | internal/syncer/engine.go:217-238 | in any interleaving a pass never deletes at the host name of a listed, eligible, buildable object, collisions included, and marks each attempt with its listing |
| `Orphans.DeletedNameWasTakenSince` | internal/syncer/engine.go:438-469 | over every run: whoever had a deleted host name at the moment of the deletion was written after the tenant was listed |
| `OrphanRaces.RecreatedLosesItsMirror` | internal/syncer/engine.go:184-238 | wherever a labelled mirror stands and its tenant object does not: one re-created between the two lists of a pass has its standing mirror deleted while it is live |
| `OrphanRaces.RecreationIsReachable` | internal/syncer/engine.go:184-238 | and that is reached from empty stores by a tenant that creates, deletes and re-creates one object |
| `Orphans.DeleteTakesWhatItMeets` | internal/syncer/engine.go:454-468 | the unconditional delete takes whatever replaced the listed object, labels or not |
| `Orphans.DeletedIsListedIffUnchanged` | internal/syncer/engine.go:438-469 | over every run: the deleted object is the labelled one that was listed exactly when its version is unchanged, and then it carries the labels |
| `SiblingTenants.PassDeletesSelected` | internal/syncer/engine.go:438-469 | in any interleaving, what a pass sends for deletion carries its own selector's labels, and so does what it removes unless that took the listed object's place since |
| `SiblingTenants.CrossDeletionsAreReplacements` | internal/syncer/engine.go:438-469 | a pass removes an object under another tenant's labels only if the two sanitize to one label or the object was replaced since it was listed |
| `SiblingTenants.DeletionsStayWithinTenantIff` | internal/syncer/engine.go:441-451 | of the objects as listed, a tenant's passes remove only its own if and only if no other tenant of the host namespace sanitizes to the same label |
| `SiblingTenants.SiblingLosesItsMirror` | internal/syncer/engine.go:441-469 | else a pass over one tenant removes the other's mirror |
| `SiblingTenants.WellNamedTenantsStayApart` | internal/syncer/engine.go:441-451 | two well-named tenants never remove a listed object from each other |
| `SiblingTenants.RunsRemoveOwnOrReplaced` | internal/syncer/engine.go:438-469 | over every run: what a well-named tenant removed from another was not the version listed |
| `SiblingTenants.ReplacementIsDeleted` | internal/syncer/engine.go:454-469 | but the delete is unconditional: another tenant's mirror that took the place of a listed orphan is removed, whatever the two are called |
| `SiblingTenants.SiblingsShareAKey` | internal/syncplan/plan.go:63-75 | two well-named tenants with different labels may have mirrors at one key, for any four labels |
| `SiblingTenants.WellNamedTenantLosesItsMirror` | internal/syncer/engine.go:438-469 | so one may lose a true mirror to the other's pass, when it is created between list and delete |
| `SiblingTenants.DottedSiblingReachesIn` | internal/syncplan/plan.go:82-111 | a tenant with a dot in its name has the selector of the one with a dash there |
| `Conservation.ReconcileIsPaid` | internal/syncer/engine.go:380-424 | a pair costs nothing, one denial or one paid attempt; a denial is one Skip and changes neither store nor history |
| `Conservation.PassConserves` | internal/syncer/engine.go:195-237 | each eligible object and each orphan gives exactly one decision or one error, all are reported, and every attempt was paid for by one grant |
| `Conservation.RunIsPaid` | internal/controller/sync.go:80-121 | the attempts of all resources of one run together never exceed the grants |
| `Convergence.PassPaysMinimum` | internal/syncer/engine.go:252-362 | under every policy, missing mirrors, disagreeing pairs (under "manual" those where exactly one side moved) and orphans fall by exactly the smaller of the grants and their number; a winner's side stands |
| `Convergence.Converges` | internal/syncer/engine.go:184-362 | enough passes to cover the measure leave nothing to do, for any orders and allocated values, and a winner's side comes through untouched |
| `RunConvergence.RunPaysMinimum` | internal/controller/sync.go:80-121 | over one run, the sum of what all resources with a winner owe falls by exactly the smaller of the shared grants and that sum |
| `RunConvergence.RunsConverge` | internal/controller/sync.go:52-122 | enough runs to cover the sum leave nothing to do for any of them, whatever is loaded and recorded |
| `Convergence.SettledStaysSettled` | internal/syncer/engine.go:301-307 | from then on every pass is all Skip and writes nothing |
| `Convergence.NothingToDoMeans` | internal/syncer/engine.go:252-362 | then every wanted object has a mirror, its own mirror agrees or is held for want of exactly one moved side, and no labelled object lacks a source |
| `ManualPass.NothingLeftButStandoffs` | internal/syncer/engine.go:347-361 | in a sound state under "manual", what is held then is a standoff |
| `ToHostPass.PassPlacesExactlyTheMirrors` | internal/syncer/engine.go:132-144 | after an unobstructed toHost pass the labelled host objects are exactly the mirrors of the wanted tenant objects, agreeing but for Pods, and nothing else on either side has changed, in any list order |
| `Standoff.PassLeavesItBe` | internal/syncer/engine.go:357-361 | a two-sided change under "manual" leaves both objects and the baseline untouched by a pass, whatever is edited elsewhere, whatever call fails, even with a colliding third object |
| `Standoff.PassesLeaveItBe` | internal/syncer/engine.go:364-368 | and by every number of passes of that resource on one history |
| `StandoffRuns.OtherKindsPass` | internal/syncer/engine.go:252-374 | a pass of another kind leaves both objects of a pair alone, and replaces its baseline at most by one of its own kind |
| `StandoffRuns.StandoffLastsOverRuns` | internal/controller/sync.go:52-122 | over every run, with fresh engines, reloaded histories and passes of all kinds, a standoff leaves both objects untouched until someone edits one of them, as long as its kind is synced both ways under "manual" and every history loaded late is one that both sides have left behind (else the pair may look one-sided, as in Drift); the recorded baseline is the one it was or names versions of another kind of the same host name |
| `StandoffRuns.DisputeHappens` | internal/syncer/engine.go:347-361 | such runs can start in sound systems, with the baseline of an earlier agreement on record |
| `Standoff.StandoffHappens` | internal/syncer/engine.go:357-361 | the situation arises for every mirrored object that drifted, without a baseline or under one that both sides have left behind |
| `Standoff.StandoffAfterAgreement` | internal/syncer/engine.go:347-361 | it arises in sound states, with the truthful baseline of an earlier agreement on record |
| `Drift.SettledPairIsBaselined` | internal/syncer/engine.go:259-307 | after a create, agreement, push or pull the baseline names exactly the two versions that stand |
| `Drift.OneSidedDriftHeals` | internal/syncer/engine.go:347-356 | under "manual" a one-sided drift is carried over in one turn, the moved side stays, the two agree and the baseline is renewed |
| `ManualPass.ManualPassSettles` | internal/syncer/engine.go:184-362 | a whole manual pass: a standoff is left exactly as it was, every other pair with its own mirror ends agreed and baselined, a foreign occupant still shuts it out, and a missing mirror is made unless a colliding one came first |
| `Drift.OneSidedHappens` | internal/syncer/engine.go:347-356 | the situation arises on either side, for every mirrored object |
| `DecisionLog.SyncDecision.LoadConvergenceHistory` | internal/controller/sync_decisions.go:23-37 | the loop returns the stored history, or an empty one |
| `DecisionLog.RecordingTells` | internal/controller/sync_decisions.go:69-84 | a recording ends the log with one entry for each decision, in order, that names its action, kind, tenant namespace and name, host namespace and name, and reason; trimming takes the oldest entries |
| `DecisionLog.SyncDecision.RecordSyncDecisions` | internal/controller/sync_decisions.go:50-94 | appending, trimming and replacing the history in place is the specified recording: afterwards the last entries tell the decisions, field by field, and older ones stand before them as far as there is room |
| `DecisionLog.WindowRefinesFullLog` | internal/controller/sync_decisions.go:69-84 | over every sequence of recordings the window tells exactly the last `retain` of all decisions, field by field and in order |
| `DecisionLog.RecordThenLoad` | internal/controller/sync_decisions.go:86-93 | a history records and loads back equal if and only if there was a decision, room and an entry, or it was there before |
| `TenantSync.TenantSync.RunResource` | internal/controller/sync.go:93-120 | one resource's pass, its error and its recording are the specified job |
| `TenantSync.TenantSync.RunSync` | internal/controller/sync.go:52-122 | one fresh engine, history and limiter for all resources, loading what the cache holds of the record and recording after each success, is the specified run |
| `RunLaws.JobIsRecorded` | internal/controller/sync.go:93-116 | a pass goes on record if and only if it had no error, made decisions, recording is on with room, and the write got through; then the record ends with what it decided and holds the engine's history |
| `RunLaws.OneWayJobsKeepHistory` | internal/controller/sync.go:80-116 | passes of resources that flow one way leave the history loaded for the run as it was |
| `RunLaws.ErrorsStopNothing` | internal/controller/sync.go:102-108 | a failing pass changes nothing about what the ones after it do and record |
| `RunLaws.FirstErrorIsReported` | internal/controller/sync.go:80-122 | the run reports the first error that any of its passes gave |
| `RunLaws.WhatASyncStartsFrom` | internal/controller/sync.go:63-90 | with recording off a sync starts without baselines and leaves the record alone; with it on it starts from what its cache shows, and does nothing when that cannot be read |
| `Teardown.TeardownIsSafe` | internal/controller/namespace.go:64-127 | over every honest interleaving, stale reads included, a tenant's control-plane namespace exists only while the tenant holds the finalizer, and updates only ever touch the tenant's own, names colliding or not |
| `Teardown.TeardownIsSafeFromGenesis` | internal/controller/namespace.go:64-127 | in particular over every honest run of a cluster that starts empty |
| `Teardown.CachedReadIsSafeIffItShowsOwn` | cmd/manager/main.go:63-64 | the condition on stale reads is the exact one for the invariant to survive the read: an answer must not hide the tenant's own namespace from its teardown |
| `TeardownRaces.NamespaceOutlivesFinalizerIff` | internal/controller/namespace.go:103-127 | after a read that lets go of the finalizer, over every honest interleaving up to the release, the namespace is left behind if and only if the tenant owned it when it read and it did not disappear in between |
| `TeardownRaces.StaleReadLeavesNamespaceBehind` | internal/controller/namespace.go:103-127 | an answer from before the namespace was created makes teardown release the finalizer and leave it behind |
| `Teardown.CachedBeginIsSafeIffItShowsFinalizer` | internal/controller/tenantcluster_controller.go:47-79 | likewise for a stale TenantCluster: starting on it keeps the invariant if and only if it does not show a finalizer, with no deletion under way, that is gone |
| `TeardownRaces.StaleBeginLeavesNamespaceIff` | internal/controller/tenantcluster_controller.go:47-79 | over every honest interleaving: provisioning on such a read ends in a namespace without a finalizer if and only if the finalizer was gone and the name free at lookup and creation |
| `TeardownRaces.StaleBeginRevivesNamespace` | internal/controller/tenantcluster_controller.go:47-79 | from an empty cluster, a tenant that was deleted before it had a namespace gets one that nobody will delete |
| `Teardown.DeletesAreSafe` | internal/controller/namespace.go:116-126 | if nobody else deletes owned namespaces and none is doomed on an old answer, no delete ever hits one without the tenant's three labels |
| `Teardown.ConvergeShapes` | internal/controller/namespace.go:82-95 | the three labels of ownership and the three levels of Pod security are set back to their values whatever they were, and every other label stays |
| `TeardownRaces.OwnerUntilGone` | internal/controller/namespace.go:116-126 | while its worker rests, a tenant stays the owner over any honest run if and only if the namespace never disappears |
| `TeardownRaces.DeleteHitsOwnIffNeverGone` | internal/controller/namespace.go:116-126 | the delete that follows hits nothing or whatever has the name, which is the tenant's own if and only if the tenant owned it when it read and it never disappeared in between |
| `TeardownRaces.ControlPlaneNamesCollide` | internal/controller/namespace.go:29-34 | against the comment: two tenants of different names share a control-plane name, for any three labels |
| `TeardownRaces.ControlPlaneNameIsAlone` | internal/controller/namespace.go:29-34 | no other short tenant has a control-plane name if and only if its base can be cut in one way behind "cp" |
| `TeardownRaces.ShortControlPlaneName` | internal/controller/namespace.go:29-34 | labels of at most 55 bytes together stand whole in the name, behind "cp-x-" |
| `TeardownRaces.SameNameTenantsDiffer` | internal/controller/namespace.go:29-34 | two tenants of one name in different namespaces do not, for labels on short names |
| `TeardownRaces.DeleteMayHitANewcomer` | internal/controller/namespace.go:121-125 | once its own namespace is gone, a delete takes the namespace of a tenant whose name collides |
| `TeardownRaces.DeleteMayHitAStranger` | internal/controller/namespace.go:121-125 | or a stranger's, without any collision |
| `TeardownRaces.RaceIsReachable` | internal/controller/namespace.go:64-127 | the state before either is reached from an empty cluster by ten honest steps |
| `TeardownRaces.HonestRunsCanDeleteAnothersNamespace` | internal/controller/namespace.go:64-127 | so for any three labels an honest run from an empty cluster deletes another tenant's namespace |
| `TeardownLiveness.HeldTenantIsReconciled` | internal/controller/namespace.go:103-127 | one reconcile with its calls served lets a deleted tenant go that owns no namespace, touching nothing, or dooms exactly the namespace it owns |
| `TeardownLiveness.DeletionEndsIffNamespaceGoes` | internal/controller/namespace.go:99-127 | over every honest interleaving between two reconciles, the second lets the tenant go if and only if its namespace has disappeared, and has it doomed otherwise |
| `TeardownLiveness.NothingHoldsWithoutNamespace` | internal/controller/namespace.go:116-120 | a tenant that owns no namespace goes with one reconcile after any honest interleaving, even where a foreign namespace has the name, which stays as it is |
| `TeardownLiveness.NothingToTearDown` | internal/controller/tenantcluster_controller.go:60-63 | a deleted tenant without the finalizer is left alone |
| `ReconcilerOps.Reconciler.EnsureControlPlaneNamespace` | internal/controller/namespace.go:68-97 | however its calls fare, the method is a run of the small steps; a namespace without the three labels is left alone and refused, and no other is ever touched; served, it succeeds exactly as owner, with all six labels in place |
| `ReconcilerOps.Reconciler.TeardownNamespace` | internal/controller/namespace.go:103-127 | likewise, the runtime-class binding included; served, the finalizer may go if and only if no namespace with the three labels has the name, a foreign one is left alone, and the tenant's own is doomed |
| `ReconcilerOps.Reconciler.Reconcile` | internal/controller/tenantcluster_controller.go:47-129 | the deletion path, or finalizer, preparations and namespace in this order, each stopping at the first call that fails, is a run of the small steps; served, a deleted tenant is gone unless it owns its namespace, which is then doomed, and a live one has finalizer and namespace unless a foreign one has the name |
| `ReconcilerOps.ReconcileIsSafe` | internal/controller/tenantcluster_controller.go:47-129 | so a reconcile whose calls fail anywhere keeps every tenant's invariant and deletes only the tenant's own |

## Left out

* Strings are ASCII: `unicode.IsLetter` admits letters beyond it, while truncation works on bytes.
* Kubernetes clients, watches, indexes, kubeconfig extraction, events, CLI and website: I/O and boilerplate. An API server is a versioned store that keeps what is written and may fill in a Service's allocated fields.
* Typed metadata stands for the accessors of the unstructured package; malformed metadata is not represented. Numbers are integers or reals, and nil and empty collections are one.
* Graceful deletion: a deleted object is gone at once, without a grace period or finalizers of its own, Pods included; `ToHostPass.PassPlacesExactlyTheMirrors` and the orphan counts of `Convergence` rely on it.
* Server-side validation, defaulting beyond the allocated Service fields, and status subresources.
* `rate.Limiter` is a counter of grants per run: refills in the middle of a run and any cap across runs are not modelled (a fresh limiter is built for every run).
* Runs converge in `RunConvergence` where every resource has a winner: under "manual" what a pass owes depends on the history, which is reloaded between runs and shared with other kinds.
* Progress of toHost under a limiter is not claimed: it pushes agreeing pairs too, so a fixed list order can spend every grant on the same first objects.
* Reason texts, timestamps, owner references and log lines carry no property.
* Loading the record may serve any earlier version; the read behind a recording is the current one, since an older one makes the update fail and counts as a failed call.
* The durable SyncDecision object is written by one tenant's controller only; an empty object left behind by a failed status update is not told apart from none.
* `syncResourcesFromPolicy`, `rateLimiterForFairness`, `listGVK` and the direction checks of the three entry points: tables and parsing. The kind stands for its group, version and kind.
* In the teardown machine the get and update that add or remove the finalizer are one version-checked step, and each tenant has one worker at a time. Both reads may be stale (`CachedRead`, `CachedBegin`); a release after a stale start may go through in the model where the server would refuse it.
* What the rest of `Reconcile` does (isolation, admission policies, StatefulSet, Services, kubeconfig, `cleanupLegacyControlPlane`): only whether the part before the namespace went well is kept.
* `internal/isolation`, support conditions, admission objects: single-function tables.
