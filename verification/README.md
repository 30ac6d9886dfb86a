# Bloby's blob lifecycle

Bloby stores blobs that uploaders declare in advance: a size, a SHA-256 and a
CRC64NVME. A registry row goes from pending to available, or from pending to
expired to gone. Bytes arrive through signed single PUTs or multipart parts.
Finalizers, deleters, server writes and cleanup sweeps of several replicas
interleave, and no lock covers both the registry and storage. This project
models that protocol, the loops that implement it and the browser uploader in
front of it, and proves what the whole keeps.

## How it is laid out

| layer | modules | content |
|---|---|---|
| values | `Wrappers`, `Content`, `Table`, `Storage`, `Keys`, `Encoding`, `Hashing`, `TokenCodec` | rows and their CHECK constraints, each SQL statement as a function, what a backend holds, the key scheme, header encodings, streamed hashes |
| machine | `Protocol` | every operation as a program counter with locals; one SQL statement or one backend call is one step |
| invariant | `Invariant`, `Effects`, `Steps`, `Migration` | the global invariant in rely-guarantee form, each effect, each step, and the states a run may start from |
| theorems on runs | `Safety`, `ContentTypes`, `Timing`, `UploadSweep`, `SweepAges`, `BlockedFinalizer`, `Uploading`, `EndToEnd` | what holds of every run, in states, steps and times |
| theorems on operations | `Progress`, `Finalizers`, `Writers`, `Begins`, `Operations`, `SweepProgress`, `SweepFaults`, `RemovalProgress`, `PartListing` | exactly what an operation leaves when only the given fates disturb it |
| code in place | `Registry`, `S3Store`, `FileStore`, `Transfer`, `Service`, `Cleanup`, `Client` | classes and loops over the same values, tied to the functions the machine uses |

The operations of `bloby/ingest.go`, `bloby/cleanup_store.go` and
`bloby/object_store.go` appear twice. In `Protocol` they are program counters,
because their difficulty is what other operations do between two of their calls.
In `Service` and `Cleanup` Finalize, Write and the sweeps are methods over the
registry and the backend. For Write and the sweeps the machine's own run, alone
and with the fates given, is proved to leave what the method's contract says
(`RemovalProgress`, `SweepProgress`, `SweepFaults`); Finalize succeeds under the
same condition in both (`Progress.FinalizeAlone`, `Service.Service.Finalize`).
Begin, PresignMultipartPart and Delete, which have no loop, are in the machine
only, with what they leave stated column by column (`Begins`, `Operations`).

A step may fail before its effect, or take effect and lose its response.
Between any two steps any other operation may step, the clock may advance, an
uploader may start a request under any unexpired target, the body of a request
once accepted may land however late, and an application may attach or detach
references. A run starts from any table the declaration
migration can leave (`Migration.Initial`), possibly with orphaned bytes and open
uploads.

Assumptions, all written out as predicates: `Storage.EnvOk` (a key parses back
to its identifier, digests are lowercase hexadecimal, a detected content type is
not empty, the transfer lifetime is positive), `Storage.Admits`,
`Storage.Completes` and `Protocol.PartLands` (what the provider enforces on
signed requests and completions), `Transfer.CodecLaw` (JSON and the MAC), and
`Client.Rounded` (division of doubles). `Keys.AssumptionsMet` gives the
assumptions on keys and digests a model with the real key scheme, and
`TokenCodec.LawIsMet` gives one to the codec's law. SHA-256,
CRC64NVME and ETags stay uninterpreted, so the results speak of digests.

## Five findings

- The orphan sweep can abort an upload that a visible row records. It does so in
  some run exactly for uploads recorded more than the maximum pending age after
  they were opened: `UploadSweep.LossExactlyWhenLate` is the equivalence,
  `UploadSweep.SlowRecordIsAborted` the run, from an empty installation, for every
  such delay, and `UploadSweep.AbortsOnlyUnrecorded` the guarantee for each upload
  that is recorded in time, whatever happens to others. The loss is final: the
  object is never available in any later run (`UploadSweep.LossIsFinal`).
- A stale finalizer can fail although the declared bytes are stored: one that read
  its row before the upload was recorded, and comes to publish after another
  completed the upload but before it cleared it. The table then refuses the row.
  `Finalizers.StaleFinalizersSucceed` shows that this is the only way, and
  `BlockedFinalizer.StaleFinalizerRefused` is a run that takes it.
- A target that is signed some time after its row was refreshed has expired before
  a sweep claims the row exactly if that time is at most the maximum pending age
  less the lifetime, and one tick (`Timing.SafeLagExactly`). An hour is within
  that bound for every lifetime whose addition does not overflow, except those
  between 23 and 24 hours (`Timing.HourIsSafe`).
- The maximum pending age exceeds the transfer lifetime exactly for lifetimes
  up to the largest 64-bit duration less one hour; beyond that the addition
  wraps (`Timing.MaxAgeOutlivesTargets`).
- The file backend refuses every body declared with the largest 64-bit size,
  because the bound of one byte more wraps (`FileStore.Store.Put`).

## Model

| member | source | states |
|---|---|---|
| Steps.ApplyGood | bloby/ingest.go:21-258 | every event - a step of any operation with any fault, a request accepted or a body landing under any target, a clock tick, a reference - keeps the global invariant and moves the shared state only forward |
| Steps.RunGood | bloby/ingest.go:21-258 | so every run, of any length and interleaving, keeps it |
| Steps.CallRecords | bloby/ingest.go:167-182 | no operation except a multipart begin ever records an upload, and it records the one it opened |
| Steps.RecordsOwn | bloby/ingest.go:167-182 | no other operation records an upload for an identifier that this one created |
| Steps.DoomedUnowned | bloby/cleanup_store.go:65-85 | a listed key that no visible row owned at lookup is owned by none from then on |
| Steps.VerifiedIsDeclared | bloby/s3.go:322-359 | what verification accepts is what the identifier's birth declared |
| Steps.ClaimedDead | bloby/cleanup_store.go:36-53 | claimed rows are beyond revival when their bytes are removed |
| Effects.KeptPut | bloby/s3.go:185-208 | a single PUT at an identifier's key can only store its declared bytes and leaves every other row's bytes alone |
| Effects.KeptComplete | bloby/s3.go:254-305 | completion assembles at the key of the row that recorded the upload, where nothing was assembled before |
| Effects.KeptErase | bloby/object_store.go:202-219 | erasing a key that no visible row owns breaks no row's bytes |
| Effects.KeptPublish | bloby/pgxstore/store.go:48-67 | publishing over the declared bytes keeps the invariant and publishes an identifier never published before |
| Effects.KeptRecord | bloby/pgxstore/store.go:79-90 | recording keeps one upload per row for life |
| Effects.KeptClaim | bloby/pgxstore/store.go:161-177 | claiming expires only rows that waited long enough and touches nothing published |
| Effects.NotYetAssembled | bloby/s3.go:254-305 | while a recorded upload is open its object's key holds nothing |
| Effects.RowKeyParses | bloby/object_store.go:70-77 | every row's key leads back to its identifier, and for declared rows it is the key of its birth |
| Safety.PublishedBytesDeclared | bloby/ingest.go:64-153 | in every reachable state each available row's key holds bytes of the declared size, with the declared SHA-256, or the declared CRC64NVME if a multipart upload assembled them |
| Safety.FileBytesDeclared | bloby/file.go:221-239 | whatever a file store holds at an identifier's key is its declared content, even after the row is gone, so the size-only verification is sound |
| Safety.ErasedNeverOwned | bloby/cleanup_store.go:58-85 | bytes that any step erases never belong to a row that is visible then or later, whatever ran between listing, lookup and delete |
| Safety.LifecycleOneWay | bloby/pgxstore/store.go:48-110 | identifiers are not reused, a row keeps its declaration and key, expiry is final, available and expired exclude each other, a published row does not change until it is deleted |
| Safety.RowsForwardRun | bloby/pgxstore/store.go:35-211 | the one-way order of rows holds between any two states of a run |
| Safety.PublicationsCounted | bloby/pgxstore/store.go:48-67 | the number of times a run takes an identifier from pending to available is one or zero, and one exactly if it ends up published |
| Safety.FinalizersAgree | bloby/ingest.go:105-153 | all operations that return a published object of one identifier return the same row, and it is published at most once |
| Safety.ReturnedStays | bloby/ingest.go:105-153 | a result once returned does not change |
| Safety.FallbackNeverPending | bloby/pgxstore/store.go:53-62 | when MarkAvailable updates no row and reads it again, the row is published or not visible, never still pending |
| Safety.PendingAlwaysDeclared | bloby/object_store.go:79-85 | a pending row always carries its declaration, so the missing-declaration error is unreachable |
| Safety.RefusedOnlyWhileUploading | bloby/pgxstore/store.go:48-67 | publishing never meets another row with its key, and the table refuses it exactly while the row records a multipart upload |
| Safety.ReferencedSurvives | bloby/cleanup_store.go:150-167 | a published object keeps its row and bytes for as long as it stays referenced, also when it was attached after being listed as unreferenced or while a writer unwinds |
| Safety.AssembledFrozen | bloby/s3.go:254-305 | assembled bytes never change again; they are only ever erased, with the row gone or expired, and the upload that made them stays closed |
| Safety.TableAlwaysValid | bloby/pgxstore/migrations/002_declared_content.sql:12-30 | in every reachable state the table meets every constraint, storage keys are unique, and each row's key names its identifier |
| ContentTypes.PublishedType | bloby/ingest.go:139-165 | in every run, what a finalizer publishes is the pending row with its type, key and times set and no other column changed; the type is detected from the first 3072 bytes of a body, the very one the key holds if an upload assembled it, and one of the same size and SHA-256 if single PUTs stored it |
| Migration.MigrationSound | bloby/pgxstore/migrations/002_declared_content.sql:3-30 | every table valid before is valid after, published rows are untouched, and nothing is left pending |
| Migration.UpdateNeeded | bloby/pgxstore/migrations/002_declared_content.sql:5-30 | the new constraint rejects exactly the rows that the UPDATE expires |
| Migration.MigrationTouches | bloby/pgxstore/migrations/002_declared_content.sql:3-10 | the UPDATE sets the expiry of pending rows and changes nothing else |
| Migration.MigratedInitial | bloby/pgxstore/migrations/002_declared_content.sql:3-30 | a migrated table over sound storage is a state from which the theorems on runs hold |
| Progress.FinalizeAlone | bloby/ingest.go:105-153 | an undisturbed Finalize of a visible row publishes if and only if it was published, its content is stored, or its open upload would assemble to it |
| Progress.FinalizePublishesWhatIsReady | bloby/ingest.go:105-153 | for a fresh finalizer, the same from every reachable state, including those after a lost completion or publish response, for all page sizes |
| Progress.AloneIsRun | bloby/ingest.go:105-153 | running alone is a run of the machine, so the results on runs apply to it |
| Progress.VerifiedExactly | bloby/s3.go:322-359 | verification accepts a stored object if and only if it is the declared content |
| Progress.ListAlone | bloby/s3.go:257-305 | the paginated listing reaches the same completion however its pages are cut |
| Writers.WriterAlone | bloby/ingest.go:77-99 | a writer about to publish returns the published row if the row is visible, unchanged if another operation published it; if the row is gone it removes the bytes it stored |
| Begins.BeginAlone | bloby/ingest.go:21-61 | a valid declaration gets one new identifier and a pending row, column by column, with an open upload recorded on it for a Begin above 100 MiB on S3 and otherwise one target for the declared size and SHA-256 |
| Begins.BeginUndone | bloby/ingest.go:30-43 | if signing the target or opening the upload fails, before or after its effect, rows, bytes and uploads are as before, except for an upload whose opening lost its response |
| Begins.RecordingUndone | bloby/ingest.go:167-182 | if recording the upload fails, before or after its effect, the upload is aborted and the row deleted |
| Operations.DeleteAlone | bloby/ingest.go:240-256 | removes the row, its bytes and its recorded upload if the row is visible, under the prefix and unreferenced; otherwise nothing changes, and nothing else ever does |
| Operations.PresignAlone | bloby/ingest.go:200-237 | signs one target, with the number and checksum asked for, at the key and for the upload of the row, exactly for a pending row under the prefix that records an upload on S3; otherwise signs nothing |
| Operations.WholeIsRun | bloby/ingest.go:200-256 | an operation started and left alone is a run of the machine, so the results on runs apply to it |
| Finalizers.FinalizerAlone | bloby/ingest.go:105-153 | from each of its eleven positions an undisturbed finalizer ends with the published row if and only if the state meets that position's condition |
| Finalizers.EveryFinalizerAlone | bloby/ingest.go:105-153 | the same for every finalizer in every reachable state, fresh or overtaken by other finalizers, deleters and sweeps, for all page sizes |
| Finalizers.StaleFinalizersSucceed | bloby/ingest.go:184-198 | once the declared bytes are stored under a visible row, a finalizer at any position can succeed if and only if it is not about to publish while the row still records its upload, and asks for the right prefix |
| Finalizers.StaleFinalizersAgree | bloby/ingest.go:127-153 | so after completion, clearing or publication by another, an undisturbed stale finalizer ends with the published row, the very row if it was published |
| BlockedFinalizer.StaleFinalizerRefused | bloby/pgxstore/migrations/002_declared_content.sql:12-30 | for every blob that needs an upload, a run from an empty installation in which the remaining case happens and the stale finalizer ends with an error over stored declared bytes |
| Invariant.ClearedStable | bloby/pgxstore/store.go:92-110 | a row once read visible and without an upload after its upload closed never records one again |
| PartListing.AscendingSorted | bloby/s3.go:262-283 | a listing holds exactly the parts above its marker, in strictly ascending order |
| PartListing.AscendingResumes | bloby/s3.go:262-283 | the listing after any part is the rest of the listing |
| PartListing.TotalIsLength | bloby/s3.go:275-289 | the summed sizes are the length of what completion assembles |
| PartListing.ListingCompletes | bloby/s3.go:290-305 | a provider accepts the whole listing of an unchanged upload |
| PartListing.AddedPart | bloby/s3.go:287-289 | a further part adds exactly its own length to the total |
| Timing.MaxAgeOutlivesTargets | bloby/cleanup_store.go:169-174 | pending uploads outlive their targets if and only if adding the hour does not overflow |
| Timing.TargetExpiresBeforeClaim | bloby/cleanup_store.go:36-39 | a target signed within max age less lifetime, and one tick, of its row's last refresh has expired before any sweep claims the row: no request under it is accepted then or later, though a body accepted before may still land |
| Timing.SafeLagExactly | bloby/cleanup_store.go:36-39 | signing within a given time of the refresh is safe in every run if and only if that time is at most max age less lifetime, and one tick |
| Timing.LateTargetOutlives | bloby/cleanup_store.go:36-39 | for every later signing, a run in which the target is still accepted when its row is claimed |
| Timing.HourIsSafe | bloby/cleanup_store.go:169-174 | with the maximum pending age the service computes, an hour is safe exactly for lifetimes up to 23 hours and a tick, and from 24 hours to where the addition overflows |
| Timing.ClaimsApart | bloby/pgxstore/store.go:161-177 | two claims of one row, by any replicas, are more than the retry delay apart |
| Timing.ExpiryStep | bloby/pgxstore/store.go:161-177 | only a claim sets an expiry, to the current time, on a row that waited long enough |
| Timing.RefreshProtects | bloby/pgxstore/store.go:69-77 | once a finalizer or a part request refreshed a pending row, no sweep claims it until more than the maximum age has passed |
| UploadSweep.AbortsOnlyUnrecorded | bloby/cleanup_store.go:87-119 | if an upload is recorded within the maximum pending age, a sweep step that aborts it does so while no visible row records it, whatever happens to other uploads |
| UploadSweep.SlowRecordIsAborted | bloby/cleanup_store.go:87-119 | for every delay beyond the maximum pending age, a run from an empty installation records its upload that late and a sweep aborts it |
| UploadSweep.LossIsLate | bloby/cleanup_store.go:87-119 | whenever a sweep aborts the upload of a visible row, the run recorded that upload more than the maximum pending age after it was opened |
| UploadSweep.LossExactlyWhenLate | bloby/cleanup_store.go:87-119 | some run loses an upload recorded a given time after it was opened if and only if that time exceeds the maximum pending age |
| UploadSweep.LossIsFinal | bloby/cleanup_store.go:87-119 | once a sweep aborts the open upload of a visible row, that object is not available in any later state of any run |
| UploadSweep.RecordedOnce | bloby/pgxstore/store.go:79-90 | a run records an upload at most once, so its delay is determined |
| UploadSweep.OrphansUnrecorded | bloby/cleanup_store.go:107-113 | the uploads a lookup leaves as orphans are recorded by no visible row |
| SweepAges.SweptWasOld | bloby/pgxstore/store.go:181-200 | in every run, a row that a sweep of unreferenced objects deletes was published longer than the maximum age before that sweep started, lies under one of its prefixes, and is unreferenced when it goes |
| SweepAges.ErasedWasOld | bloby/cleanup_store.go:58-85 | bytes that an orphan sweep erases were older than the maximum age, counted back from its start, when it listed them |
| SweepAges.AbortedWasOld | bloby/cleanup_store.go:87-119 | an upload that an upload sweep aborts was opened longer than the maximum age before that sweep started |
| SweepProgress.DrainAlone | bloby/cleanup_store.go:65-85 | batches of a hundred remove exactly what filtering the whole listing names |
| SweepProgress.DrainLeavesOnlyOwned | bloby/cleanup_store.go:60-85 | from any reachable state, after an undisturbed drain every listed key that is left and parses belongs to a visible row, and owned keys keep their bytes |
| SweepProgress.LoopsRefineDrain | bloby/cleanup_store.go:65-85 | the replica's nested loops leave the same objects as the machine's steps |
| SweepProgress.DrainUploadsAlone | bloby/cleanup_store.go:95-119 | batches of a hundred abort exactly the uploads that filtering the whole listing names |
| SweepProgress.DrainLeavesOnlyRecorded | bloby/cleanup_store.go:87-119 | from any reachable state, after an undisturbed drain every listed upload that is left is recorded on a visible row, and no other upload is touched |
| SweepProgress.LoopsRefineUploadDrain | bloby/cleanup_store.go:95-119 | the replica's nested loops over uploads leave the same uploads as the machine's steps |
| SweepProgress.OrphansExactly | bloby/cleanup_store.go:107-113 | the filter keeps exactly the listed uploads that no visible row records |
| SweepFaults.DrainLeavesInUse | bloby/cleanup_store.go:60-85 | from every reachable state a drain takes, of the keys it listed, exactly those that name an identifier and hold the bytes of no unexpired row |
| SweepFaults.DrainLeavesRecorded | bloby/cleanup_store.go:87-119 | and of the listed open uploads exactly those that the unexpired row their key names does not record |
| SweepFaults.LoopsRefineFailingDrain | bloby/cleanup_store.go:65-85 | under every pattern of failed lookups and failed deletes the nested loops leave what the machine leaves |
| SweepFaults.LoopsRefineFailingUploadDrain | bloby/cleanup_store.go:95-119 | the same for open uploads and failed aborts |
| SweepFaults.RemovalRetries | bloby/cleanup_store.go:43-48 | a claimed row is dropped only if the calls that remove its upload and bytes both reported success, and otherwise stays to be claimed again |
| RemovalProgress.ClaimSweepAlone | bloby/cleanup_store.go:36-53 | the machine's claiming sweep, alone, leaves the rows, bytes and uploads that the replica's method promises |
| RemovalProgress.ListSweepAlone | bloby/cleanup_store.go:154-167 | so does its sweep of unreferenced objects |
| RemovalProgress.WriteFated | bloby/ingest.go:63-99 | the machine's server write, whatever the fates of its PUT and its publish, publishes everything or leaves nothing but a spent identifier, as the replica's method does while nothing references the object |
| RemovalProgress.FatedIsRun | bloby/ingest.go:63-99 | steps with given fates are a run of the machine |
| Cleanup.Sweeper.Owners | bloby/cleanup_store.go:122-134 | the visible rows that the parsable keys of a batch name; it fails only if a lookup was needed and failed |
| Cleanup.Sweeper.SweepObjects | bloby/cleanup_store.go:65-85 | over any listing, exactly the removable keys of the answered batches go, unless their delete fails; an unresolved batch loses nothing |
| Cleanup.Sweeper.SweepUploads | bloby/cleanup_store.go:95-119 | exactly the unowned uploads of the answered batches are aborted |
| Cleanup.Sweeper.RemoveBytes | bloby/object_store.go:208-219 | the key is empty and the recorded upload, if it is open at that key, is closed |
| Cleanup.Sweeper.SweepExpiredUploads | bloby/cleanup_store.go:36-53 | the first hundred candidates are expired and removed with their bytes and exactly the open uploads they record, except rows still referenced, which stay expired |
| Cleanup.Sweeper.DeleteUnreferenced | bloby/object_store.go:184-200 | exactly the visible unreferenced rows among the identifiers lose their row, their bytes and the open uploads they record |
| Cleanup.Sweeper.SweepUnreferenced | bloby/cleanup_store.go:154-167 | exactly the first hundred old, published, unreferenced objects of the prefixes by identifier go, with their bytes; a row published at or after the cutoff survives, and no upload is touched |
| Cleanup.Sweeper.SweepOrphans | bloby/cleanup_store.go:58-120 | exactly what is left: the keys and uploads that are younger than the cutoff, the keys that do not parse, and whatever belongs to a visible row |
| Cleanup.Sweeper.Sweep | bloby/cleanup_store.go:36-56 | exactly which rows, bytes and uploads a whole sweep leaves, the claimed and the listed rows given by their columns; afterwards nothing old is orphaned, rows neither claimed nor listed are untouched, and rows still visible keep their bytes |
| Cleanup.DoomedExactly | bloby/cleanup_store.go:73-80 | the filter keeps exactly the listed keys that parse and that no visible row owns |
| Cleanup.OwnedExactly | bloby/cleanup_store.go:73-80 | the lookups by identifier decide exactly whether some unexpired row keeps its bytes at a key, or records an upload |
| Cleanup.LeftInUse | bloby/cleanup_store.go:58-120 | what an orphan sweep leaves: all that is young, all keys that name nothing, and what is in use |
| Cleanup.KeysOfExactly | bloby/object_store.go:208-219 | a removal of claimed objects empties the key of each of them and no other |
| Cleanup.UploadsOfExactly | bloby/object_store.go:208-219 | and closes the uploads they record at their own keys, on S3, and no other |
| Cleanup.Sweeper.DeletionTakes | bloby/object_store.go:184-200 | a deletion of identifiers takes the unexpired unreferenced rows among them, their keys and the uploads they record |
| Cleanup.Sweeper.IdsOfMembers | bloby/cleanup_store.go:43-48 | of claimed rows exactly the unreferenced ones are dropped |
| Registry.Store.CreatePending | bloby/pgxstore/store.go:35-46 | succeeds exactly for a valid declaration, under a new identifier that is spent either way |
| Registry.Store.MarkAvailable | bloby/pgxstore/store.go:48-67 | publishes a pending row once; a retry returns the published row unchanged; which conditions give not found, invalid input or already exists |
| Registry.Store.RefreshPending | bloby/pgxstore/store.go:69-77 | touches the clock of pending rows only |
| Registry.Store.RecordMultipartUploadID | bloby/pgxstore/store.go:79-90 | only a pending row without an upload takes one |
| Registry.Store.ClearMultipartUploadID | bloby/pgxstore/store.go:92-110 | succeeds exactly when the row ends up without an upload, and conflicts exactly with another one |
| Registry.Store.GetByID | bloby/pgxstore/store.go:112-118 | finds visible rows only |
| Registry.Store.ListByIDs | bloby/pgxstore/store.go:120-134 | exactly the visible rows among the identifiers |
| Registry.Store.Delete | bloby/pgxstore/store.go:152-159 | removes a visible row unless something references it |
| Registry.Store.ClaimExpiredPending | bloby/pgxstore/store.go:161-177 | claims the longest waiting abandoned rows in the query's order, all of them unless the limit is reached, sets their expiry to now, and changes nothing else |
| Registry.Store.ListUnreferenced | bloby/pgxstore/store.go:179-200 | the rows that are published before the cutoff, under a prefix, unexpired and unreferenced, with the least identifiers, all of them unless the limit is reached |
| Registry.Store.DeleteExpiredPending | bloby/pgxstore/store.go:202-211 | removes an expired row unless something references it |
| Registry.Select | bloby/pgxstore/store.go:162-167 | a list that is ordered, as long as the limit allows, and precedes everything left out |
| Registry.FirstOfUnique | bloby/pgxstore/store.go:162-167 | the order and the limit determine that list completely |
| Registry.ListsDiscardable | bloby/pgxstore/store.go:193-195 | in the columns: the listed rows are published before the cutoff, under a prefix, unexpired and unreferenced, in the order of identifiers, and a row like that is left out only behind a full list of smaller ones |
| Registry.ClaimsAbandoned | bloby/pgxstore/store.go:162-167 | in the columns: the claimed rows are unpublished and either expired before the retry time or untouched since the cutoff; expired ones come first, then the longest waiting, and a row like that is left out only behind a full list of longer waiting ones |
| Registry.PublishableRow | bloby/pgxstore/migrations/002_declared_content.sql:12-30 | which pending rows the table constraints let become available |
| Registry.NewRowValid | bloby/pgxstore/migrations/001_objects.sql:3-36 | the constraints accept a new row exactly for a valid declaration |
| Registry.ClaimKeepsTable | bloby/pgxstore/migrations/001_objects.sql:33-35 | claims keep every table constraint |
| S3Store.RetryWithMissingPart | bloby/s3.go:284-289 | after a refused completion, adding one missing part lets a retry succeed exactly if it has the missing length |
| S3Store.Store.CompleteMultipartUpload | bloby/s3.go:254-305 | for all page sizes: assembles the ascending parts if they total the declared size, and otherwise leaves storage as it was |
| S3Store.Store.ListAllParts | bloby/s3.go:262-283 | the loop over pages names every part once, in ascending order, with their total |
| S3Store.Store.Verify | bloby/s3.go:322-359 | comparing encoded headers in a loop decides exactly what the digests decide: the size, and every reported full-object digest, at least one, equal the declared ones |
| S3Store.Store.Put | bloby/s3.go:130-150 | stores the body exactly if it has the declared SHA-256 |
| S3Store.Store.UseTarget | bloby/s3.go:185-208 | a signed PUT stores exactly the bodies of the declared length and SHA-256 |
| S3Store.Store.AbortMultipartUpload | bloby/s3.go:307-320 | closes the upload open at that key and nothing else |
| S3Store.Expired | bloby/s3.go:421-453 | the entries before the cutoff, those some page shows, however the pages are cut, and nothing exactly if a page failed |
| S3Store.ListsOld | bloby/s3.go:421-453 | an item is listed exactly if some page shows it with a time before the cutoff |
| FileStore.Store.CopyLimited | bloby/file.go:124-130 | the first bytes up to the limit and their hash state, for any chunks |
| FileStore.Store.Put | bloby/file.go:105-146 | the file changes exactly if the key resolves, the reader did not fail, the body has the declared size and SHA-256 and the size is not the largest integer |
| FileStore.Store.Delete | bloby/file.go:148-159 | removes the file a key names; a missing file is no error |
| FileStore.StoredIsAdmitted | bloby/file.go:105-146 | a stored write is one that the machine's target admits |
| FileStore.ExpiredObjects | bloby/file.go:254-287 | a walk that fails keeps the older keys it saw before the failure |
| FileStore.WalkedExactly | bloby/file.go:254-287 | a key is reported exactly if the walk came, before any failure, to a file of that key older than the cutoff |
| Hashing.Digest | bloby/content.go:27-40 | streaming a reader through both hashes declares its length and both digests of all its bytes, for any chunks |
| Hashing.AbsorbAppend | bloby/content.go:27-40 | feeding two chunks is feeding their concatenation |
| Transfer.SignedVerifies | bloby/capability.go:34-62 | a signed token verifies to its own claims until it expires, for its own operation only |
| Transfer.AcceptedExactly | bloby/capability.go:41-62 | for every token: it is accepted for claims if and only if it is their text, a dot and the secret's MAC of that text, and they are unexpired and for this operation |
| Transfer.AuthorizedExactly | bloby/http.go:81-99 | for every request: it is let through exactly with proved, unexpired PUT claims for the key its path names that declare a size and a SHA-256, answered 410 exactly if its claims are proved but expired, and otherwise 401 |
| TokenCodec.LawIsMet | bloby/capability.go:34-62 | the assumed round trip of claims is satisfiable for every 64-bit size and expiry, with any keyed function as the MAC |
| Transfer.TargetAdmitsDeclared | bloby/http.go:55-99 | a signed PUT target is accepted at its path exactly until it expires, and then admits only the declared content |
| Transfer.TargetOnlyItsPath | bloby/http.go:81-99 | at another path or for another operation the token authorizes nothing |
| Transfer.Handler.Put | bloby/http.go:55-71 | a file changes only on a 204, which is given exactly if the token proves, with the secret's MAC, unexpired PUT claims for the path's key and the body has the size and SHA-256 they declare; which requests get 401 and 410 |
| Encoding.HexRoundTrip | bloby/content.go:68-72 | decoding lowercase hexadecimal loses nothing |
| Encoding.HexTable | bloby/content.go:68-72 | the hexadecimal digits, character by character |
| Encoding.SextetsRoundTrip | bloby/content.go:68-72 | regrouping bytes into six bits and back is the identity |
| Encoding.GroupsAreBits | bloby/content.go:68-72 | three bytes and their four groups are the same number of 24 bits |
| Encoding.TailIsBits | bloby/content.go:68-72 | the last one or two bytes fill two or three groups, with zero bits after them |
| Encoding.AlphabetTables | bloby/content.go:68-72 | the two alphabets, character by character |
| Encoding.PaddedLength | bloby/content.go:68-72 | equals signs fill the text to whole groups of four |
| Encoding.Base64Injective | bloby/content.go:68-72 | padded standard Base64 is injective |
| Encoding.Base64DigestInjective | bloby/content.go:68-72 | two validated digests have the same header exactly if they are equal |
| Encoding.DigestIgnoresCase | bloby/content.go:68-72 | any two hexadecimal texts that differ only in case have one header, which is why digests are validated as lowercase first |
| Encoding.RawUrlRoundTrip | bloby/capability.go:34-55 | a token's parts decode to what they encode and never contain the separator |
| Keys.KeyNamesOwner | bloby/cleanup_store.go:136-148 | a key parses back to its identifier, whatever the filename |
| Keys.KeysDistinct | bloby/object_store.go:70-77 | keys are equal only for the same identifier and filename |
| Keys.SchemeMeetsLaw | bloby/object_store.go:70-77 | the key scheme meets the law the machine relies on |
| Keys.AssumptionsMet | bloby/object_store.go:70-77 | the assumptions on keys and digests are satisfiable with this key scheme |
| Keys.DecimalRoundTrip | bloby/cleanup_store.go:142-147 | decimal text reads back as its number |
| Keys.AcceptedIsSegment | bloby/object_store.go:235-251 | an accepted filename is a single path segment |
| Keys.AcceptedResolves | bloby/file.go:70-80 | the file store resolves the key of every accepted filename to a path of its own under the root |
| Keys.ResolvesExactly | bloby/file.go:70-80 | a key is refused exactly if one of its segments is ".."; any other resolves under the root to its own segments without the empty ones and the dots |
| Keys.NormalizedExactly | bloby/object_store.go:235-251 | an accepted filename is the last segment of the given name, cut at slashes and backslashes and trimmed of white space, and has no control character |
| Keys.OwnerExactly | bloby/cleanup_store.go:136-148 | a key names an identifier exactly if its first segment under the prefix is a decimal number of 64 bits, signed or not |
| Service.Service.Finalize | bloby/ingest.go:105-153 | returns the published object if and only if the row is visible under the prefix and was published or ready; the published row is the pending one with type, key and times set and the upload cleared, its type detected from the first 3072 bytes at the key; other rows, keys and uploads are untouched, and a refusal leaves the upload open for a retry unless it was completed or gone |
| Service.Service.CompleteMultipart | bloby/ingest.go:184-198 | refused only when not ready; otherwise the row's upload is closed and cleared, no other is touched, and the key holds the declared bytes exactly if it was ready |
| Service.Service.PublishInspected | bloby/ingest.go:139-152 | publishes exactly if the key holds the declared bytes, with the type that the first 3072 of them have |
| Service.Service.Inspect | bloby/ingest.go:155-165 | the first 3072 bytes, or all, of exactly the verified objects |
| Service.Service.Write | bloby/ingest.go:63-99 | succeeds with the body published, every column of the row given, exactly if PUT and publish did; otherwise it leaves no row and no bytes, also when only a response was lost, unless the object was attached meanwhile, and then it keeps both |
| Service.CompletionReady | bloby/ingest.go:184-198 | what each outcome of a completion says about readiness |
| Service.FreshKey | bloby/object_store.go:70-77 | no bytes were ever stored under an identifier not yet handed out |
| Client.CeilSurvivesRounding | packages/bloby-client/src/index.ts:110-111 | the part size and count computed with rounded doubles are the exact ones for every exactly represented blob size |
| Client.PartsPartition | packages/bloby-client/src/index.ts:108-121 | the parts of every nonempty blob are nonempty, at most ten thousand, all but the last of the part size, and in order are the blob |
| Client.PartSizeLeast | packages/bloby-client/src/index.ts:110 | the part size is the least from 64 MiB on that ten thousand parts can cover the blob with |
| Client.PartCountLeast | packages/bloby-client/src/index.ts:111 | the parts are as few as that size allows |
| Client.ServerSigns | bloby/ingest.go:209-214 | the server signs every part the client asks for, under its own number and checksum, for the upload the pending row records |
| Uploading.SignedAsAsked | bloby/ingest.go:200-237 | in every run, a target that a part request signs carries the identifier, number and checksum it was asked for, at the object's key, for the one upload recorded for it, and lasts one lifetime from then |
| Uploading.PartsStep | bloby/s3.go:229-252 | only a body that lands changes the parts of an upload that stays open, and it changes the part its target names |
| Uploading.ClientUploads | packages/bloby-client/src/index.ts:108-142 | whatever else runs meanwhile, an empty upload on which only the client's parts landed, each under a target asked for as that part, and all of them did, holds exactly the blob's parts |
| Uploading.ClientPublishes | packages/bloby-client/src/index.ts:100-142 | and a finalizer left alone then publishes the blob |
| Uploading.PartsInTurn | packages/bloby-client/src/index.ts:117-147 | from every reachable state with an empty open upload, asking for the parts in turn and sending each at once fills it with the blob |
| Client.UploadedPartsAssemble | packages/bloby-client/src/index.ts:117-129 | an upload that holds the client's parts assembles to exactly the blob |
| Client.Read | packages/bloby-client/src/index.ts:161-168 | the slices are nonempty, bounded, as many as the size asks for, and in order are the blob |
| Client.Digest | packages/bloby-client/src/index.ts:62-88 | the declaration of the whole blob; the reports strictly grow, end at its size, and after every slice the last one has the percentage reached |
| Client.Meter.Replay | packages/bloby-client/src/index.ts:117-158 | under any interleaving of callbacks, failures and successes the counter is the sum of the parts' last reports, stays within the blob, and is its size once every part succeeded |
| Client.LatestWithin | packages/bloby-client/src/index.ts:117-158 | the sum of the parts' last reports never exceeds the blob |
| Client.AllSucceeded | packages/bloby-client/src/index.ts:150-158 | when every part's last word is success, the sum is the blob's size |
| EndToEnd.UploadedBlobIsPublished | bloby/ingest.go:105-153 | in any reachable state whose upload received the client's parts of the declared blob, a finalizer left alone publishes it with the blob's size and checksums |

## Left out

- One clock stands for the database's, the provider's and every replica's; skew between them is not modelled.
- The phases of one cleanup pass are separate operations in the machine, so it also covers orders that the code does not produce; `Cleanup.Sweeper.Sweep` has the code's order.
- ContentTypes.PublishedType: for single PUTs the body whose type was detected has the size and SHA-256 of what the key holds when the row is published; an uploader may use the target again in between, so only a SHA-256 collision could tell the two apart.
- Service.Service.Finalize: the second read after a refresh that found no row is only in the machine, because nothing can come between the two statements of a method.
- EndToEnd.UploadedBlobIsPublished: states size and digest of the published bytes rather than the bytes, as the digests are uninterpreted.
- Progress.FinalizeAlone: like the lemmas of `Finalizers`, requires enough steps for ten thousand single-part pages, more than any listing needs.
- Upload targets outstanding when the declaration migration runs; a run starts without any.
- The 64-bit sum of part sizes: ten thousand parts of the provider's largest part size stay far below its range.
- UTF-8 validity of filenames, and the validation pattern of prefixes.
- Content-type parsing and detection: the detector is a function with a nonempty result.
- The temporary file of the file backend, its permissions and the pruning of empty directories; only the rename is visible.
- JSON and HMAC beyond a round trip and a keyed function; that nobody without the key forges a token is an assumption.
- Contexts, timeouts, logging, HTTP plumbing, the AWS and PostgreSQL drivers, and the query that reads referencing columns from the catalog.
- Rounding of the reported percentage: it is a parameter of the digest loop.
- The client's concurrency limit and its abort signal; any interleaving of callbacks is covered.
- Delivery, range serving, download URLs, transfer origins, listing by prefix, the HTTP adapters, authentication and authorization, and advisory locks: thin wrappers over libraries.
