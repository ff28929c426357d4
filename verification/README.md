# Shared Resource CSI driver: a verified model

The driver mounts the data of a Secret or ConfigMap, named through a cluster-wide SharedSecret or
SharedConfigMap, into pods of other namespaces, and keeps it up to date. Its correct outcome is simple: a
volume shows the data its share points to if its pod may use the share, and nothing otherwise. The code
reaches that outcome through callbacks that fan out over callbacks, each walking every volume; one path asks
for an access review and another does not; some tables are never cleaned. The project models that machinery
and relates it to the simple outcome over every run.

## How it is built

- `Cluster` is what the driver observes while it handles one event: listers and API, access reviews, failing
  paths. Every event of a run carries a world of its own, so nothing is assumed to stay the same.
- `Sweeps` and `Machine` are the driver as a state machine: volumes, the eight callback tables, files, volume
  records on disk and mounts; publish, unpublish, share and object events, restart, prune; and whole runs.
- `CsiDriver` and `NodeServer` are the same driver on the heap: a class with those fields, the loops of the
  source over maps in arbitrary order, volumes shared by reference with the callbacks that captured them, the
  scratch fields of the ranger. Each method is proved to do what the state machine says, and
  `NodeServer.Process.Serve` extends that to whole runs.
- `Publishing` and `Housekeeping` say what each step does in terms of the request's own fields, the tables of the
  listers and the API, the records, the mounts and the host, without the definitions of the state machine.
- `Registry`, `Passes`, `Provenance`, `Upserts`, `Convergence`, `Deletions`, `Persistence` and `Calls` prove
  the properties of runs. `Limits` holds the cases in which the driver misses the simple outcome.
- `Informers` and `Shutdowns`, `Publication`, `Withdrawal`, `Revocation` and `Removal` are protocols of their own:
  stop channels of namespace informers used by three goroutines, fields of a volume set while rangers read them, a
  volume deleted or denied while another goroutine writes to it, and emptying a directory of symlinks.
- `Text`, `Keys`, `Rangers`, `Reservations` and `Requests` are the string codecs, the dispatch of callbacks, the
  reserved share names with the admission webhook's decisions, and the checks of a publish request.

A `Plan` states what the kubelet guarantees: a volume id always comes with the same volume, and different ids
have different target paths. `Registry.Sound` is the invariant that every step keeps.

## Where code and documentation differ

The code is followed, and an exact condition is proved, in each of these cases.

- README.md:170-171 promises removal of data when the backing object is deleted. It happens exactly while the
  volume's delete callback is registered (`Deletions.DeleteObjectExactly`); a restart does not register it
  again, nor does regaining a lost permission (`Limits.RestartMissesObjectDeletions`,
  `Limits.RegainedPermissionMissesDeletion`). Restoration after re-creation does hold
  (`Deletions.RecreatedObjectRestores`).
- An object that becomes empty leaves its old keys in place (`Convergence.SpecificationMetExactly`,
  `Limits.EmptiedObjectStays`).
- A step leaves new data in a volume whose pod it denies exactly if it is an upsert that serves the volume without
  having reviewed it (`Upserts.WriteRuleExactly`, `Limits.UnfetchableUpsertReachesDenied`). With the event processors
  running at the same time, a denial is also undone by a write that was on its way (`Revocation.ShownExactly`).
- Volumes are matched to share events by name, not by kind (`Convergence.OtherKindEventExactly`,
  `Limits.TwinShareReplacesData`, `Limits.OtherKindDeleteIsNotRestored`).
- A publish onto a mounted path reports success without mapping or storing (`Calls.PublishCompleteExactly`,
  `Limits.RetryDoesNotStore`).
- Callers of the unregister functions for share updates expect the entry to be gone; they delete from the
  upsert tables instead, and the share-update tables never shrink (`Deletions.UnpublishLeavesNothing`).
- `StoreToDisk` reports success without a record when the volume-map directory cannot be opened, so a publish
  succeeds that a restart does not know of (`Calls.PublishCompleteExactly`, `Limits.UnstoredPublishIsForgotten`).
- `Prune` panics, before it removes anything, exactly when a record cannot be opened
  (`CsiDriver.Driver.PruneDisk`, `Limits.UnreadableRecordStopsPrune`).
- A controller shutdown closes every stop channel exactly once unless the share-event handler and the periodic
  pruner have clashed before or one of them has a registration or an unregistration half done
  (`Shutdowns.ShutdownExactly`). Over all interleavings of the three goroutines there is a panic exactly when one of
  them closes what another has closed, or meets an entry without a channel (`Shutdowns.RunPanicsExactly`); and a
  registration is lost exactly when the pruner is at the same namespace (`Shutdowns.RegistrationKeptExactly`).
- A ranger or a callback that has got hold of a volume can fill its directory again after the volume is deleted
  (`Withdrawal.LeftBehindExactly`), and a record that could not be removed brings the volume back at the next
  restart (`Persistence.RestartRecovers`).
- Volumes of different pods can have one mount identifier, and are then unmounted together
  (`Calls.UnpublishIsolationExactly`, `Limits.MountIDsCollide`).

## Model

| member | source | states |
|---|---|---|
| NodeServer.Process.Serve | pkg/controller/controller.go:363-386 | any sequence of calls, events and restarts leaves the process's own files, records and mounts as the state machine's run does, with the registry invariant kept |
| NodeServer.Process.Handle | pkg/controller/controller.go:388-411 | one call, event or restart on the heap is one step of the state machine, whatever order its loops take |
| NodeServer.Process.NodePublishVolume | pkg/csidriver/nodeserver.go:185-286 | status and whole new state of a publish request, error paths included: an unanswered review is Internal, an unopenable volume-map directory is success without a record |
| NodeServer.Process.MountAndMap | pkg/csidriver/nodeserver.go:231-286 | the part after createVolume: an already mounted target ends it, a failed mapping stops it before the record, and the status of storing is the status of the call |
| NodeServer.Process.NodeUnpublishVolume | pkg/csidriver/nodeserver.go:288-321 | status and whole new state of an unpublish request; memory is cleared before the record is removed |
| NodeServer.Process.Restarted | pkg/csidriver/driver.go:780-825 | a new process keeps files, records and mounts only and ends as a restart of the state machine |
| CsiDriver.Driver.ShareUpdateRanger | pkg/csidriver/driver.go:500-518 | one walk over the volume table in arbitrary order is one pointwise pass over the volumes naming the share |
| CsiDriver.InnerShareUpdateRanger.Range | pkg/csidriver/driver.go:413-498 | one volume's call changes that volume only, by its own decision, whatever the scratch fields held before |
| CsiDriver.InnerShareUpdateRanger.Reconcile | pkg/csidriver/driver.go:431-494 | behind the match: skip when share or object is missing, empty and unregister when denied, write when allowed |
| CsiDriver.InnerShareUpdateRanger.FetchItem | pkg/csidriver/driver.go:443-476 | found exactly when share and object can both be fetched, and then the scratch fields are those of this share |
| CsiDriver.Driver.LosePermissions | pkg/csidriver/driver.go:480-491 | a denied volume is emptied and loses its four object callbacks, of both kinds |
| CsiDriver.Driver.CallShareUpdates | pkg/cache/shares.go:60-97 | the event sent through every registered callback, each ranging over all volumes, is at most one pass |
| CsiDriver.Driver.AddShared | pkg/cache/shares.go:60-97 | nothing but an error when the object cannot be fetched, otherwise the fan-out |
| CsiDriver.Driver.CallReferringShares | pkg/cache/secrets.go:51-56 | first phase of an upsert: all listed shares that refer to the object, in any order, as one fan-out |
| CsiDriver.Driver.CallUpsertCallbacks | pkg/cache/secrets.go:58-59 | second phase: each callback writes to the volume it captured, in any order, with no review |
| CsiDriver.Driver.UpsertBacking | pkg/cache/secrets.go:45-60 | the two phases in this order |
| CsiDriver.Driver.DeleteBacking | pkg/cache/secrets.go:63-67 | each delete callback empties the volume it captured if its share points at the object |
| CsiDriver.Driver.CommonUpsertRanger | pkg/csidriver/driver.go:230-290 | writes the payload exactly where the key filter proceeds, an empty one makes the directory only, and fails exactly on a file-system error |
| CsiDriver.Driver.PodFile | pkg/csidriver/driver.go:261-282 | the file map is the byte entries overridden by the text entries |
| CsiDriver.Driver.CommonDeleteRanger | pkg/csidriver/driver.go:338-348 | empties the target exactly where the key filter proceeds |
| CsiDriver.Driver.ShareDeleteRanger | pkg/csidriver/driver.go:389-399 | one walk empties every volume naming the share |
| CsiDriver.Driver.DelShared | pkg/cache/shares.go:137-151 | the share-delete fan-out, collapsed to one walk |
| CsiDriver.Driver.MapBackingResourceToPod | pkg/csidriver/driver.go:520-637 | status and new state of the mapping, in each of its branches |
| CsiDriver.Driver.RegisterUpsertCallback | pkg/cache/secrets.go:72-94 | stores the captured volume if refreshing is on; running the callback once more changes no file |
| CsiDriver.Driver.RegisterShareRangers | pkg/csidriver/driver.go:651-668 | registers both share callbacks and runs the update one once, with the registry invariant kept |
| CsiDriver.Driver.MapVolumeToPod | pkg/csidriver/driver.go:639-649 | rangers are registered only after the mapping succeeded |
| CsiDriver.Driver.CreateVolumeFor | pkg/csidriver/driver.go:671-716 | an id in the table gives the very same volume object; otherwise a new one with the request's fields |
| CsiDriver.Driver.ForgetVolume | pkg/csidriver/driver.go:761-778 | table entry, target directory and seven of the eight callback entries go; the share-update entry stays |
| CsiDriver.Driver.LoadVolsFromDisk | pkg/csidriver/driver.go:780-825 | the walk in any order, each loadable record registered as it is met |
| CsiDriver.Driver.LoadRecord | pkg/csidriver/driver.go:792-822 | undecodable records and records filed under another name are skipped |
| CsiDriver.Driver.PruneDisk | pkg/csidriver/driver.go:829-892 | panics exactly at an unopenable record, with nothing changed; otherwise exactly the decodable records of missing pods leave the disk, exactly what is mounted under their identifiers is unmounted with its files, and everything else stays |
| CsiDriver.Driver.CollectOrphans | pkg/csidriver/driver.go:830-869 | panics exactly when some record cannot be opened, and otherwise collects exactly the decodable records whose pod lookup says NotFound |
| CsiDriver.Driver.StoreToDisk | pkg/csidriver/dpv.go:185-207 | no error and no record without the directory, Internal when the file cannot be created, a truncated file when the write fails, otherwise a record with the present fields |
| Registry.NextSound | pkg/csidriver/driver.go:520-667 | every step keeps: ids of upsert, delete and share-delete tables are volumes of that kind, the captured volume is the one in the table, object ids are in the share-update table |
| Registry.RunSound | pkg/cache/shares.go:156-217 | so does every run of any length |
| Sweeps.SweepSweep | pkg/csidriver/driver.go:500-518 | applying a rule to the volumes A and then B is applying it to A + B: idempotence, commutation, order independence |
| Sweeps.SweepOwn | pkg/csidriver/driver.go:413-498 | a swept volume's directory follows from its own decision alone |
| Sweeps.SweepOther | pkg/csidriver/driver.go:413-498 | a volume that is not swept keeps its directory |
| Passes.VisitsArePass | pkg/csidriver/driver.go:413-498 | ranging over volumes in any order, with repetitions, is one pass over those visited |
| Passes.OrderIndependent | pkg/csidriver/driver.go:500-518 | all complete iteration orders end in the same whole state |
| Passes.FanOutCollapses | pkg/cache/common.go:33-45 | n >= 1 nested callbacks, each in an order of its own, have exactly the effect of one pass |
| Passes.PassesCompose | pkg/cache/secrets.go:51-56 | fan-outs for several shares, one after the other, are one fan-out for all of them |
| Passes.PassOwn | pkg/csidriver/driver.go:401-498 | isolation: files and callbacks of a covered volume depend on its own decision only |
| Passes.PassOther | pkg/csidriver/driver.go:401-498 | isolation: nothing of a volume that is not covered changes |
| Rangers.Range | pkg/cache/common.go:39-45 | a Range visits distinct keys until a call returns false |
| Rangers.CallEach | pkg/cache/common.go:33-45 | every callback is called exactly once, whatever it and the earlier ones return |
| Provenance.StepMoves | pkg/csidriver/driver.go:413-498 | a step leaves a volume as it was, empties it, or puts in the payload of its own share's object, after a review unless an upsert missed the volume |
| Provenance.WriteRule | pkg/cache/secrets.go:45-60 | in every step of every run, a volume denied in that step ends as it was or empty, except when an upsert of its own object serves it unreviewed |
| Upserts.WriteRuleExactly | pkg/csidriver/driver.go:478-494 | of all steps in any state, exactly those leave new data in a volume whose pod they deny that upsert its object with a payload it does not show, through a registered callback and without reviewing it |
| Upserts.RunWriteRuleExactly | pkg/cache/configmaps.go:44-58 | the same at every step of every run |
| Provenance.DeniedIsDropped | pkg/csidriver/driver.go:480-491 | a volume reviewed and denied in phase one has no callback left for phase two |
| Provenance.Provenance | pkg/csidriver/driver.go:230-290 | after any run, what a volume shows is nothing or was written by some event as the payload its own share pointed to |
| Provenance.AllowedProvenance | pkg/csidriver/driver.go:431-432 | and, without upserts of its own object that serve it unreviewed, while the pod was allowed |
| Upserts.UpsertIsReconcile | pkg/cache/secrets.go:45-60 | for a current event the two-phase upsert equals its first phase, as a whole state |
| Upserts.PhaseTwoAddsNothing | pkg/cache/secrets.go:45-60 | the same for every event whose selected shares are all settled by phase one |
| Upserts.UpsertIsReconcileExactly | pkg/cache/secrets.go:51-59 | for a given world and event, phase two adds nothing in any state exactly when each share its key filter selects is listed with that reference, the object can be fetched, and the payload is empty or the fetched one or no pod may use the share |
| Upserts.UnsettledDiffers | pkg/cache/secrets.go:58-59 | otherwise, a state in which phase two changes the files |
| Upserts.UpsertsIrrelevant | pkg/cache/configmaps.go:44-58 | so the files do not depend on which upsert callbacks are registered |
| Upserts.ProceedIsReferring | pkg/csidriver/driver.go:197-228 | the key filter of phase two selects exactly the volumes whose shares phase one selects |
| Upserts.UpsertDeniedExactly | pkg/cache/secrets.go:45-60 | what an upsert leaves in a denied volume: nothing if phase one reviews it, the event's data otherwise |
| Upserts.UpsertRuleExactly | pkg/cache/secrets.go:51-59 | a denied volume keeps out the data exactly when its share is listed, refers to the object and the object is fetched |
| Convergence.Convergence | pkg/csidriver/driver.go:413-518 | after any history, a relist of a fixed API state leaves each published, deliverable volume with its share's data if allowed and empty if not |
| Convergence.HistoriesConverge | pkg/cache/shares.go:60-97 | two histories and two relists of the same API state end equal |
| Convergence.ShareEventExactly | pkg/csidriver/driver.go:413-498 | what a volume shows after its own share's event, in every case |
| Convergence.SpecificationMetExactly | pkg/csidriver/driver.go:283-287 | the event brings the volume to the simple specification exactly when denied, or the payload is not empty, or nothing was there |
| Convergence.OtherKindEventExactly | pkg/csidriver/driver.go:429-431 | an event of the other kind leaves a served volume alone exactly when the shares are not twins or the twin's data makes no difference |
| Convergence.PermissionCycle | pkg/csidriver/driver.go:478-494 | data goes when the permission goes and comes back when it comes back |
| Deletions.DeleteShareExactly | pkg/csidriver/driver.go:354-399 | exactly the volumes naming the share are emptied and every table stays |
| Deletions.DeleteThenAddExactly | pkg/cache/shares.go:137-151 | deleting and re-adding a share gives what adding alone gives, exactly when there is data to put back, none was there, the pod is denied or the volume names another share |
| Deletions.DeleteObjectExactly | pkg/csidriver/driver.go:338-348 | an object deletion empties a volume exactly when its delete callback is registered and its share points at the object |
| Housekeeping.ShareDeleteShows | pkg/cache/shares.go:137-151 | the step of a share deletion, for volumes of either kind |
| Housekeeping.ObjectDeleteShows | pkg/cache/secrets.go:63-67 | the step of an object deletion, over callback table, share tables and key texts |
| Deletions.RecreatedObjectRestores | pkg/cache/secrets.go:45-60 | re-creating a deleted object restores every published volume that may have it |
| Deletions.UnpublishLeavesNothing | pkg/csidriver/driver.go:761-778 | a successful unpublish leaves no table entry, record, mount or directory; the share-update tables keep theirs |
| Deletions.UnpublishForgets | pkg/csidriver/nodeserver.go:304-318 | every unpublish that gets as far as deleteVolume takes the volume out of memory and off its mount, also when its directory or record cannot be removed |
| Deletions.DeletedIsInert | pkg/csidriver/driver.go:761-778 | until it is published again or a restart loads its record, no sequence of share and object events, publishes and unpublishes of other volumes and prunes changes a deleted volume's target path, however its deletion went |
| Deletions.DeletedStaysGone | pkg/cache/shares.go:183-191 | after a complete unpublish no later run at all, restarts and prunes included, brings anything back without the volume's own publish, despite the share-update entry |
| Persistence.RunDisk | pkg/csidriver/nodeserver.go:278-320 | over every run whose record operations succeed, each loadable record is a volume in memory, field for field |
| Persistence.RestartRecovers | pkg/csidriver/driver.go:780-825 | a restart rebuilds exactly the loadable records, registers share callbacks but no object callbacks, and reconciles every deliverable volume |
| Housekeeping.RestartFromRecords | pkg/csidriver/driver.go:780-825 | the step of a restart: exactly the decodable records filed under their own id that the walk meets become volumes, whatever their fields, registered for their share's events and no object's; records and mounts stay |
| Housekeeping.CompleteSurvivesRestart | pkg/csidriver/driver.go:802-822 | a fully published volume is there again after any restart whose walk meets its record |
| Housekeeping.PruneStepExactly | pkg/csidriver/driver.go:864-889 | the step of a prune on records, mounts and files, with the tables untouched |
| Housekeeping.LiveVolumeKept | pkg/csidriver/driver.go:864-889 | over every run, a volume with record and mount keeps both, but for its own unpublish, a prune without its pod, or a mount identifier in common |
| Housekeeping.LivingPodKeepsVolume | pkg/csidriver/nodeserver.go:278-286 | so a published and stored volume outlives every such run as long as the pod is found by the namespace and name that were sent |
| Persistence.InterleavedPruneDisk | pkg/csidriver/driver.go:874-890 | disk stays within memory when single removals of a prune come anywhere between calls, events and restarts |
| Calls.PublishOutcome | pkg/csidriver/nodeserver.go:185-224 | a request that fails its checks changes nothing; the caller's-fault statuses come from the checks alone, and a failed check is Internal only if the access review got no answer; no panic while the share stays where validateShare found it |
| Publishing.PublishSucceedsExactly | pkg/csidriver/nodeserver.go:185-286 | a request succeeds exactly when it is acceptable for some share, its host paths are usable, and the target is mounted already or the tables hold the object and storing reports no error |
| Publishing.PublishSupplies | pkg/csidriver/nodeserver.go:263-286 | a publish that mounts: if the lister has the object, or the API has it and does not forbid it, the pod sees its data, and status and record are those of storing; otherwise the call is Internal and leaves an empty mount and the volume behind |
| Publishing.PublishRecords | pkg/csidriver/driver.go:694-713 | a publish of a new volume id records the attributes that were sent, field by field |
| Publishing.PublishMounted | pkg/csidriver/nodeserver.go:246-249 | a publish onto a mounted target succeeds and at most records the volume |
| Publishing.PublishUnready | pkg/csidriver/nodeserver.go:226-243 | an acceptable publish whose host paths are not usable is Internal and at most records the volume |
| Publishing.PublishRejects | pkg/csidriver/nodeserver.go:185-215 | every other request changes nothing and gets PermissionDenied, Internal or InvalidArgument by what its own fields and its review say |
| Publishing.ShareEventSupplies | pkg/csidriver/driver.go:413-498 | the step of a share event, over the tables: a denied volume is emptied, an allowed one shows what the tables hold unless that is empty, and without share or object it stays as it was |
| Publishing.ObjectUpsertShows | pkg/cache/secrets.go:45-60 | the step of an object upsert, over the tables: what phase one and then phase two leave in a registered volume, in every case |
| Calls.CreateVolumeOutcome | pkg/csidriver/driver.go:672-682 | the both and neither errors are unreachable; only the directory error remains |
| Calls.PublishDelivers | pkg/csidriver/nodeserver.go:231-286 | a publish that mounts and succeeds leaves the pod with its share's data and the volume mounted and registered, and fully published exactly when the volume-map directory could be opened or its record was there before |
| Calls.PublishRegisters | pkg/csidriver/driver.go:573-580 | the refresh flag and the driver's setting decide about the upsert callback; the delete callback and both share callbacks are registered in any case |
| Calls.PublishCompleteExactly | pkg/csidriver/nodeserver.go:246-249 | a successful publish leaves the volume fully published exactly when it did the mounting and the record is stored now or was before, or the target was mounted and the volume complete before |
| Calls.PublishTwice | pkg/csidriver/nodeserver.go:225-249 | repeating a successful publish succeeds and changes nothing, as the NodePublishVolume section of the Container Storage Interface Specification v1.11.0 asks |
| Housekeeping.UnpublishSucceedsExactly | pkg/csidriver/nodeserver.go:288-321 | the status of an unpublish: success exactly for a known volume whose identifier is mounted and whose record is there and can be removed; the target that was sent does not matter |
| Housekeeping.UnpublishExactly | pkg/csidriver/nodeserver.go:304-318 | what an unpublish leaves of table, mounts and records, also when its record cannot be removed |
| Calls.UnpublishIsolationExactly | pkg/csidriver/mount.go:62-74 | another volume stays mounted with its data exactly when its mount identifier differs |
| Calls.UnpublishKeepsCallbacks | pkg/csidriver/driver.go:761-778 | unpublishing a volume keeps the callbacks of the others |
| Calls.MountIDsOfOnePod | pkg/csidriver/driver.go:191-195 | within a pod, mount identifiers are equal exactly for equal volume ids |
| Requests.ValidateShareExactly | pkg/csidriver/nodeserver.go:76-155 | passes exactly the requests naming one listed, unreserved, well-referenced share the pod may use, with one pointer set; a refused review is PermissionDenied, an unanswered one Internal, everything else InvalidArgument; no nil share is dereferenced |
| Requests.ValidateExactly | pkg/csidriver/nodeserver.go:185-215 | the checks pass exactly read-only requests with a mount capability, ids, target, four pod attributes, an empty or true ephemeral attribute, and exactly one acceptable share; the status of every other request |
| Requests.RecordedExactly | pkg/csidriver/driver.go:701-713 | which attribute goes into which field of the volume |
| Requests.RefreshExactly | pkg/csidriver/nodeserver.go:217-224 | exactly these values of the attribute turn refreshing off |
| Requests.AdmittedPassesPublish | pkg/csidriver/nodeserver.go:113-121 | the publish-time name check passes exactly the shares the webhook admits, while the reference is unchanged |
| Requests.PassedRequest | pkg/csidriver/nodeserver.go:185-224 | a request that passes names one share of one kind, which the volume's pod may use |
| Reservations.ParseEnvVar | pkg/config/namewatcher.go:32-50 | the table holds, for each name, the last well-formed entry, and nothing else |
| Reservations.ParseCompositional | pkg/config/namewatcher.go:32-50 | parsing two settings joined by ";" is parsing each, the second overriding the first |
| Reservations.EntryText | pkg/config/namewatcher.go:35-48 | parsing share:namespace:name reserves the trimmed share for the trimmed namespace and name, in this order |
| Reservations.OtherText | pkg/config/namewatcher.go:36-42 | a setting with any other number of colons reserves nothing |
| Text.TrimSpaceExactly | pkg/config/namewatcher.go:43-47 | trimming takes off exactly the white space at both ends |
| Text.BlankExactly | pkg/csidriver/nodeserver.go:126-147 | a text is blank exactly when it is white space only |
| Reservations.AcceptedExactly | pkg/config/namewatcher.go:52-80 | a share is accepted exactly when not openshift-prefixed or the last well-formed entry for its name has its trimmed reference |
| Reservations.ReservedExactly | pkg/config/namewatcher.go:66-80 | comparing with the parsed table is asking for the last well-formed entry of the name |
| Reservations.AuthorizePod | pkg/webhook/csidriver/csidriver.go:79-97 | a pod is admitted exactly when each of its volumes of this driver is read-only |
| Keys.SplitKeyDomain | pkg/cache/common.go:24-31 | SplitKey accepts exactly the keys built from two non-empty colon-free parts |
| Keys.SplitBuild | pkg/cache/common.go:20-31 | splitting a built key returns the parts exactly when both are non-empty and colon-free |
| Keys.BuildSplit | pkg/cache/common.go:20-31 | building from a split key returns the key |
| Keys.KeyInjective | pkg/csidriver/driver.go:197-228 | with colon-free namespaces, equal keys are equal (namespace, name) pairs |
| Cluster.ListedIsGettable | pkg/client/listers.go:101-173 | a listed share is found by a lookup, with the same reference |
| Cluster.FetchExactly | pkg/client/listers.go:51-99 | a fetch finds exactly what the lister has, or else what the API has and does not forbid; it is forbidden exactly for an unlisted, forbidden object |
| Cluster.GetShareExactly | pkg/client/listers.go:101-115 | a share lookup finds the lister's reference, or else the API's |
| Cluster.ListSharesExactly | pkg/client/listers.go:117-136 | a listing is the lister's if it has any share, and otherwise the API's |
| Cluster.PayloadExactly | pkg/csidriver/driver.go:261-282 | the payload has the keys of both maps, and the text where both have a key |
| Cluster.ListersAgreeExactly | pkg/client/listers.go:101-173 | listings show every share a lookup finds exactly when the lister is empty or misses no share of the API |
| Cluster.ListingGuardExactly | pkg/client/listers.go:154-173 | that ListSharedConfigMap consults its lister only if the SharedSecret lister is set matters exactly when the lister it skips holds something other than the API |
| Cluster.PayloadsAgreeExactly | pkg/csidriver/driver.go:583-587 | the callback payload equals the ranger payload exactly for ConfigMaps and for Secrets whose StringData adds nothing |
| Shutdowns.ShutdownExactly | pkg/controller/controller.go:127-136 | after any interleaving of the handler and the pruner, a shutdown in any order of the entries leaves every channel closed exactly once without panic exactly when those two have not clashed and no registration and no unregistration is half done |
| Shutdowns.RunPanicsExactly | cmd/csidriver/main.go:92-107 | over every interleaving of single map accesses and closes of the handler, the pruner and shutdown, there is a panic exactly when one closes what another has closed or meets an entry without a channel; up to that each channel is closed at most once |
| Shutdowns.StepPanicsExactly | pkg/controller/controller.go:127-177 | the same for one step in any state that keeps the invariant |
| Shutdowns.HandlerAlone | pkg/controller/controller.go:141-177 | the handler by itself never panics |
| Shutdowns.RegistrationKeptExactly | pkg/controller/controller.go:141-166 | a registration beside the pruner is not lost exactly when the pruner is not at the same namespace |
| Shutdowns.AfterShutdownExactly | pkg/controller/controller.go:159-166 | after a clean shutdown an unregistration by the handler or the pruner panics exactly for a namespace that is still in the map |
| Shutdowns.PruneInSteps | pkg/controller/controller.go:168-177 | a prune, as a run of unregistrations in any order, stops exactly its entries |
| Shutdowns.CaughtPruning | cmd/csidriver/main.go:99-105 | a concrete run in which shutdown panics between the pruner's close and delete, with the handler idle |
| Shutdowns.BothUnregister | cmd/csidriver/main.go:99-105 | a concrete run without shutdown in which handler and pruner close one channel |
| Shutdowns.PrunedTooEarly | pkg/controller/controller.go:141-142 | a concrete run in which the pruner closes the missing channel of an entry just published |
| Shutdowns.CaughtUnregistering | pkg/controller/controller.go:163-164 | a concrete run in which shutdown comes between the handler's close and delete and panics |
| Shutdowns.CaughtVisiting | pkg/controller/controller.go:127-131 | a concrete run in which an unregistration comes between shutdown's load and close |
| Informers.StopConserves | pkg/controller/controller.go:159-177 | stopping entries keeps each channel either open for one namespace or closed once |
| Informers.RegisterConserves | pkg/controller/controller.go:141-157 | so does a registration, which adds its namespace and no other |
| Informers.WatchedExactly | pkg/controller/controller.go:553-630 | after any sequence of share events and periodic prunes, a namespace is watched exactly when some upsert named it and every listing pruned with since then has named it, up-to-date or not |
| Informers.WatchedWithinListed | pkg/controller/controller.go:593-630 | after each sync and each periodic prune the watched namespaces are among those of the listed shares |
| Informers.WatchedAreListed | pkg/cache/shares.go:113-133 | and equal to them once the latest version of every share has been processed and no later listing has failed or missed it |
| Informers.Controller.RegisterInformer | pkg/controller/controller.go:141-157 | a namespace not in the map gets an entry with a channel of its own; one that is stays as it was |
| Informers.Controller.UnregisterInformer | pkg/controller/controller.go:159-166 | closes and deletes the entry of one namespace |
| Informers.Controller.PruneInformers | pkg/controller/controller.go:168-177 | stops, in any order, exactly the namespaces that are not to be kept |
| Informers.Controller.ShutdownInformers | pkg/controller/controller.go:127-136 | the loop closes every channel that is open, each once |
| Informers.Controller.NamespacesWithShares | pkg/cache/shares.go:113-133 | the set of referenced namespaces, empty when listing fails |
| Informers.Controller.SyncShared | pkg/controller/controller.go:593-630 | registration before pruning; errors for unexpected verbs only; the watched namespaces after it |
| Informers.Controller.TickPrune | cmd/csidriver/main.go:100-104 | the pruner keeps exactly the watched namespaces of the listed shares, if refreshing is on |
| Publication.RunSafe | pkg/csidriver/driver.go:695-713 | over every interleaving, a ranger that matches a non-empty share id finds all setters done, and every field it reads afterwards final |
| Publication.ReadsAreOneSnapshot | pkg/csidriver/dpv.go:45-183 | its separately locked reads act as one look at the finished volume |
| Publication.PublicationExactly | pkg/csidriver/driver.go:429-431 | all rangers see the final target path, over all interleavings, exactly when the share id is not empty |
| Withdrawal.LeftBehindExactly | pkg/csidriver/driver.go:761-778 | for every interleaving of deleteVolume with a share ranger, or with a backing-object callback, the path ends empty, except exactly when the writer had got hold of the volume before its table entry or its callback went, made the directory after it was removed, and had data for it |
| Withdrawal.WithdrawalSafeExactly | pkg/csidriver/driver.go:230-290 | all interleavings are safe exactly when the writer has no data for the volume |
| Revocation.ShownExactly | pkg/csidriver/driver.go:478-494 | for every interleaving of a denial with a callback or a ranger of another event processor, the denied volume ends empty, except exactly when the callback was found registered, or the ranger had been granted its review, in time, wrote after the volume had been emptied, and had data to write |
| Revocation.RevocationSafeExactly | pkg/controller/controller.go:113-116 | all interleavings keep the denial exactly when the writer has no data for the volume |
| Removal.Directory.CommonOSRemove | pkg/csidriver/driver.go:292-336 | the removals are a prefix of the two-pass order, all of them exactly when no removal fails, and then the directory is empty |
| Removal.RemovalsExactlyOnce | pkg/csidriver/driver.go:307-334 | every entry is removed exactly once and nothing is left |
| Removal.NeverDanglesExactly | pkg/csidriver/driver.go:306-316 | no visible key dangles at any point, for any listing order and any failure, exactly when no key is reached through another |
| Removal.WriterLayoutSafe | pkg/csidriver/driver.go:306-334 | so it is for what the atomic writer leaves in a volume |
| Limits.EmptiedObjectStays | pkg/csidriver/driver.go:283-287 | a concrete run in which an emptied Secret leaves its old keys |
| Limits.UnfetchableUpsertReachesDenied | pkg/csidriver/driver.go:445-454 | a concrete run in which an upsert writes to a denied volume |
| Limits.TwinShareReplacesData | pkg/csidriver/driver.go:429-431 | a concrete run in which a twin share of the other kind replaces a volume's data |
| Limits.RestartMissesObjectDeletions | pkg/csidriver/driver.go:821-822 | after any restart no object deletion changes anything |
| Limits.RegainedPermissionMissesDeletion | pkg/csidriver/driver.go:486-489 | nor does it reach a volume whose permission was lost and regained |
| Limits.OtherKindDeleteIsNotRestored | pkg/csidriver/driver.go:371-384 | deleting and re-adding a share empties same-named volumes of the other kind for good |
| Limits.RetryDoesNotStore | pkg/csidriver/nodeserver.go:246-249 | a publish that failed to store its record succeeds on retry and still stores none |
| Limits.MountIDsCollide | pkg/csidriver/driver.go:191-195 | two concrete requests of different pods with different volume ids and one mount identifier |
| Limits.UnstoredPublishIsForgotten | pkg/csidriver/dpv.go:191-195 | a publish without an openable volume-map directory succeeds, is not complete, and no restart knows the volume |
| Limits.UnreadableRecordStopsPrune | pkg/csidriver/driver.go:844-846 | a concrete disk on which Prune panics and leaves an orphaned record |
| Limits.SharedTargetOrderMatters | pkg/csidriver/driver.go:500-518 | with a shared target path the iteration order decides, so distinct target paths are needed |

## Left out

- gRPC server, endpoint parsing, identity server, metrics, event recording and logging: plumbing without state of interest.
- Client construction, informer internals, work queues, retries and resync timers: foreign code; events simply arrive, in any order.
- The access review call: an oracle over (kind, share, pod namespace, service account) with three answers; the pod name, used for messages only, is not part of it, and a process without any client, whose error has no status of its own, is not modelled.
- The atomic writer, the JSON encoder and the mount library: a write makes the visible keys equal the payload, decoding after encoding is the identity, a mount succeeds and gives a fresh empty directory, and unmounting by identifier removes the mounts made under it.
- Partial file-system failures: a target path either refuses every operation of an event or none; for the volume-map directory opening, creating, writing and removing fail independently, and `Removal` treats failing removals entry by entry.
- Files that a restart cannot open: its walk simply does not include them among the names it loads.
- What follows a panic: the step changes nothing more; the next event of the process is a restart.
- Concurrency of whole handlers: calls and events are steps that do not overlap, except for the interleavings of `Publication`, `Withdrawal`, `Revocation`, `Shutdowns` and `Persistence.InterleavedPruneDisk`, in which writing and emptying a directory are single steps.
- CsiDriver.Driver.CommonOSRemove: speaks of the keys a pod sees, because the symlinks behind them are the subject of `Removal`.
- CsiDriver.Driver.CreateVolumeFor: runs the setters after CreateDV without interruption, because `Publication` treats them one by one.
- Informers.Controller.RegisterInformer: does not model a failing cache sync, because that needs the channel closed that nobody else has yet; the wait itself is a state of `Shutdowns`.
- Volume name, size, access type and bind-mount directory of a volume record: written and never read by the modelled code.
- Locks of the driver and of the volume records: each locked access is one step.
- Webhook dispatch and object decoding, including which of the old and new object is looked at.
- innerDeleteVolume, deleteIfEmpty and isDirEmpty: nothing calls them.
- Configuration loading, change watching and the relist interval: the refresh setting is a parameter.
- Kubelet behaviour: its guarantees are the plan; a run that breaks them is outside the theorems, except for `Limits.SharedTargetOrderMatters`.
