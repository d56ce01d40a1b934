# Immich on Demand: a verified model

Immich on Demand shows a photo server as a file system. It keeps local state
on disk and in a catalog consistent with a server that may lose replies, refuse,
or be changed by others. This project models six parts of it as state machines
and proves what each keeps over all runs.

- **Names** (`Utf8`, `Names`): file names bounded in UTF-8 bytes (section 3 of
  RFC 3629), collision markers, and the search for a free name.
- **Mount claims** (`Mounts`): shared and exclusive locks along a path.
- **The content cache** (`Sums`, `Cache`, `CacheSafety`, `CacheGuarantees`,
  `CacheContent`, `CacheOutcomes`, and the object `ContentCache`): concurrent
  hydrations with reservations, eviction, pins, open handles and deferred
  discards.
- **The upload queue** (`Manifests`, `UploadRuns`, `UploadRecovery`, and the
  objects `UploadQueue` and `QueueDirectory`): the seven-state manifest, the
  chunked hash between two locked sections, and removal through a tombstone.
- **The catalog** (`CatalogTables`, `CatalogSteps`, `CatalogChanges`,
  `CatalogCollections`, `CatalogLookup`, and the object `Catalog`): incrementally
  maintained links that have to be the from-scratch projection of the other
  tables, inodes, names and date directories.
- **The upload saga and the refresh** (`Saga`, `SagaFields`, `SagaSafety`,
  `SagaUploads`, `SagaGuarantees`, `SagaOrdinary`, `SagaConvergence`, `Refresh`,
  `SagaRefresh`): uploading a file, or a candidate that is put in its source's
  place, and refreshing the catalog meanwhile.

A step is what happens between two points where something else can come in: a
stretch of code between two `await`s, a section of the queue under its lock, one
transaction of the catalog. Tables are maps and sets, a digest stands for its
content, clocks are numbers. `Cache`, `Manifests` and `CatalogTables` say what
each step does as a function of the state; the classes take those steps in
place, as the program does, and each of their methods is proved to take exactly
that step.

What a result means is said in the fields of the rows, manifests and files, and
not in the terms of the step that makes it: `CacheOutcomes` says when a hydration
succeeds, `ListedExactly` which assets are listed, `SagaFields` what the saga has
seen of an asset, and the contracts of `UploadQueue` what each call writes.

`SagaSafety` lets the server answer anything, lets the worker crash and be
started again at any point, and lets the user and the catalog's other
transactions, publications of other jobs included, come in wherever locks allow.
`SagaConvergence` adds a server that does what it is asked and keeps one asset
per checksum, while any reply may get lost, and `SagaOrdinary` does the same for
an upload that replaces nothing.

Where the code does not do what one would expect, the condition under which it
does is proved, with an example where it does not:

- a source whose name carries its own marker cannot be replaced:
  `RetiredNameClashesIff`, `MarkedSourceIsRefused`, and for the whole saga
  `SagaConvergence.GoingOnFinishes` with `EndsWellIff`;
- a refresh that listed the jobs while a draft was open can drop its source, or
  add its candidate, unpublished, after which the job trashes the source and is
  blocked: `CompleteIsExactly`, `CompleteKeepsRowIff`,
  `CompleteAddsUnpublishedIff`, `DraftCandidateIsAdded`, `EndsWellIff`;
- a replaced video of a Live Photo is listed where it should not be, up to the
  next complete refresh: `PublicationKeepsProjectionIff`,
  `PublicationCanBreakProjection`, `RefreshComplete`;
- a complete refresh can take a published candidate away:
  `CompleteKeepsPublishedIff`, `PublishedCandidateIsDropped`,
  `PublishedStaysIffSourceInTrash`;
- an upload is not checked for its Live Photo, and then refreshes fail until one
  brings what is missing: `UploadKeepsLivePhotosIff`, `FinishStaged`,
  `LonelyStillStopsRefreshes`;
- enabling downloads can replace an open file, and nothing else can:
  `RunKeepsOpenFiles`, `EnablingReplacesOpenFile`;
- a manifest that the validator accepts can be one that retry cannot write, and
  a crash inside a manifest write quarantines the job: `RetryNeedsAttempt`,
  `ValidatorAcceptsStuckJob`, `CrashInsideManifestWriteQuarantines`.

`dafny verify dfyconfig.toml` checks everything.

## Model

| member | source | states |
|---|---|---|
| `Names.TruncateIsLongestFit` | src/immich_on_demand/model.py:14-20 | Truncation is the longest prefix of whole code points that fits the byte limit. |
| `Names.PathNameIs` | src/immich_on_demand/model.py:80-84 | The name of a path is what follows its last slash, empty and "." components aside. |
| `Names.MountedIs` | src/immich_on_demand/model.py:84-93 | A name is taken over character by character, control characters and slashes become underscores, a leading dot becomes one, and what leaves nothing becomes the identifier. |
| `Names.ShortenedIs` | src/immich_on_demand/model.py:94-103 | A name that is too long loses the end of its stem and keeps its suffix where there is room for both. |
| `Names.SafeFilenameIsSafe` | src/immich_on_demand/model.py:80-103 | Whatever the input, the result is mountable: within the byte limit, no control character or slash, not empty, not hidden. |
| `Names.SafeFilenameFixedPoints` | src/immich_on_demand/model.py:80-103 | The fixed points are exactly the safe names, and a second application changes nothing. |
| `Names.CollisionNamesDistinct` | src/immich_on_demand/model.py:106-125 | Two different ordinals never give the same name, although stems are cut and suffixes dropped. |
| `Names.CollisionNameIs` | src/immich_on_demand/model.py:106-125 | A collision name is as much of the stem as fits, the identifier between underscores, from the second on the ordinal, and the suffix if there is room for it. |
| `Names.CollisionNameIsSafe` | src/immich_on_demand/model.py:106-125 | The collision name of a safe name is safe: at most 255 bytes, and a fixed point of safe_filename. |
| `Names.SearchFindsFirst` | src/immich_on_demand/catalog.py:144-152 | The search answers the first ordinal whose name is free, and fails only if every tried name is in use. |
| `Names.AvailableNameIsFresh` | src/immich_on_demand/catalog.py:144-152 | A free safe name is always found within one more try than there are used names. |
| `Names.FindAvailableName` | src/immich_on_demand/catalog.py:144-152 | The loop computes what the search is specified to find. |
| `Names.CollisionNameFixedPoints` | src/immich_on_demand/model.py:106-125 | A collision name equals its base exactly for a 255-byte base that already carries the same marker where it would be put. |
| `Names.RetiredNameIsOwnName` | src/immich_on_demand/catalog.py:1696-1713 | A retired name is always found and is safe and free of the other names; it is the source's own name if and only if the first free ordinal is one whose marker the name already carries. |
| `Names.MarkedNameRetiresToItself` | src/immich_on_demand/model.py:106-125 | Such names exist: 217 letters and the owner's first marker make a safe name that retires to itself, whatever else there is. |
| `Mounts.OverlapIsPrefix` | src/immich_on_demand/profiles.py:243-244 | Two mount paths overlap exactly if one is a prefix of the other. |
| `Mounts.LockTable.AcquireMountLocks` | src/immich_on_demand/profiles.py:607-627 | Either every ancestor is locked shared and the mount exclusively, or the table is as it was; it succeeds exactly if nobody has locked the mount and nobody has locked anything above it exclusively. |
| `Mounts.LockTable.ReleaseAll` | src/immich_on_demand/profiles.py:622-627 | Giving back what was taken restores the table. |
| `Mounts.InvReachable` | src/immich_on_demand/profiles.py:711-756 | In every interleaving of claimants the locks that are held are compatible and are the ones that each claim has come to. |
| `Mounts.HeldMountsNeverOverlap` | src/immich_on_demand/profiles.py:711-756 | Two claims that are held at once never overlap, for any number of claimants in any interleaving. |
| `Mounts.SeparateClaimIsGranted` | src/immich_on_demand/profiles.py:607-627 | A claim that overlaps no held or unfinished claim is never refused its next lock. |
| `CacheSafety.StepInv` | src/immich_on_demand/content_cache.py:140-299 | Every step of every task, the downloads switch thrown at any moment included, keeps the tables consistent, the space above the floor and the charged total in the budget. |
| `CacheSafety.FloorCheckNeverFires` | src/immich_on_demand/content_cache.py:281-299 | With no other writer on the disk, the per-chunk floor check never refuses a chunk within the asset's size. |
| `CacheContent.RunInv` | src/immich_on_demand/content_cache.py:155-198 | Over every run the invariants hold and every remembered validation vouches for its file. |
| `CacheContent.RunKeepsSpaceAndBudget` | src/immich_on_demand/content_cache.py:440-490 | Over every run, free space less what downloads have still to write stays above the floor, and files and reservations admitted unpinned stay within max_bytes. |
| `CacheContent.HydrationServesTheAsset` | src/immich_on_demand/content_cache.py:155-198 | A hydration that succeeds, by whichever of its ways, leaves the asset's own content in the cache. |
| `CacheOutcomes.BeginOutcome` | src/immich_on_demand/content_cache.py:155-190 | When a hydration ends at once and how, by the file that is there: a whole copy that is the asset's own, or validated if managed, is a success that leaves the bytes, sets the access time and registers nothing; without one it downloads if it may and there is room; a file that may be the asset's is hashed. |
| `CacheOutcomes.ResumeOutcome` | src/immich_on_demand/content_cache.py:157-174 | The same for a waiter: it ends as the hydration it waited for did if that found downloads disabled or failed, and otherwise by the file that is there now. |
| `CacheOutcomes.HashDoneOutcome` | src/immich_on_demand/content_cache.py:325-360 | The same after a hash: the file is taken, with success, exactly if it is still the one that was read and its digest is the asset's. |
| `CacheOutcomes.ChunkOutcome` | src/immich_on_demand/content_cache.py:281-299 | In a consistent cache a chunk is counted exactly if it stays within the asset's size; otherwise the hydration fails and leaves nothing behind. |
| `CacheOutcomes.FinishOutcome` | src/immich_on_demand/content_cache.py:300-323 | A download ends with success exactly if what came has the size and, of a managed asset, the checksum; then the file is the asset's, with its time. |
| `CacheOutcomes.WaiterEndsOk` | src/immich_on_demand/content_cache.py:157-174 | A waiter of a hydration that ended well ends well, if the file it finds is still a whole copy. |
| `CacheOutcomes.EndingWellLeavesCopy` | src/immich_on_demand/content_cache.py:155-198 | Whichever step ends a hydration well, a whole copy of its asset is there afterwards. |
| `CacheOutcomes.WaiterFollows` | src/immich_on_demand/content_cache.py:157-174 | So over every run a waiter that comes next after a hydration that ended well ends well. |
| `CacheOutcomes.OthersLeaveWorkAlone` | src/immich_on_demand/content_cache.py:155-198 | No step of others touches what a task that downloads has written, reserved and registered. |
| `CacheOutcomes.DownloadEndsWellIff` | src/immich_on_demand/content_cache.py:281-323 | Over every run: a download that gets to the end of the body ends well if and only if the chunks that came add up to the size and their digest is the asset's, if it is managed. |
| `CacheContent.UnsteadySwitchReplacesOpenFile` | src/immich_on_demand/content_cache.py:179-185 | If the downloads switch is thrown inside one hydration, an open file can be replaced: a run that does it. |
| `CacheContent.EnablingReplacesOpenFile` | src/immich_on_demand/content_cache.py:179-185 | From every state in which a task found downloads disabled and is hashing, or has hashed, a wrong file of an open asset for which there is room: enabling downloads leads, by steps of that task alone, to another file in its place. |
| `CacheGuarantees.OpenFileStays` | src/immich_on_demand/content_cache.py:214-264 | While an asset is open and is not being downloaded over its own complete file, that file is neither removed nor given other bytes, by any step. |
| `CacheGuarantees.SteadyStaysUnshadowed` | src/immich_on_demand/content_cache.py:155-198 | No step leads to such a download but throwing the switch while a task that found downloads disabled is hashing or has hashed. |
| `CacheContent.RunKeepsOpenFiles` | src/immich_on_demand/content_cache.py:214-264 | So over every run without such a throw an open file is neither removed nor replaced. |
| `CacheGuarantees.DeferredDiscard` | src/immich_on_demand/content_cache.py:144-153 | A discard that had to wait happens at the last release, and no other step forgets it. |
| `CacheGuarantees.OneHydrationPerAsset` | src/immich_on_demand/content_cache.py:155-198 | At most one task at a time has registered a hydration of an asset. |
| `CacheGuarantees.UnpinnedAdmissionFits` | src/immich_on_demand/content_cache.py:440-490 | An unpinned admission leaves even the full total of files and reservations within max_bytes. |
| `CacheGuarantees.EvictionOrderIsOldestFirst` | src/immich_on_demand/content_cache.py:228-264 | Eviction goes through exactly the idle unpinned entries, by access time and then identifier. |
| `CacheGuarantees.ReserveEvictsShortestPrefix` | src/immich_on_demand/content_cache.py:456-488 | A reservation fails with nothing evicted, exactly if even without every idle unpinned entry the asset would not fit, or evicts the shortest prefix of the eviction order that makes it fit; budget, reservations, floor and what downloads have still to write are named field by field. |
| `CacheGuarantees.EvictToLimitsIsShortestPrefix` | src/immich_on_demand/content_cache.py:228-264 | evict_to_limits removes the shortest prefix that covers every expired entry and meets both limits, or everything evictable if none does. |
| `Cache.FirstFit` | src/immich_on_demand/content_cache.py:456-488 | The number of entries that make room is the least one for which the asset fits. |
| `ContentCaches.ContentCache.Acquire` | src/immich_on_demand/content_cache.py:140-142 | One more open handle, and nothing else. |
| `ContentCaches.ContentCache.Discard` | src/immich_on_demand/content_cache.py:429-435 | An idle file goes with its validation; a busy one is marked to go and the caller told. |
| `ContentCaches.ContentCache.Release` | src/immich_on_demand/content_cache.py:144-153 | One handle less; the last release carries out a waiting discard; false if none was open. |
| `ContentCaches.ContentCache.Evict` | src/immich_on_demand/content_cache.py:214-226 | Removes the file exactly if it is there, idle and unpinned. |
| `ContentCaches.ContentCache.OldestOf` | src/immich_on_demand/content_cache.py:245-247 | Finds the least recently used entry, ties by identifier. |
| `ContentCaches.ContentCache.SortedEntries` | src/immich_on_demand/content_cache.py:245-247 | Lists all entries in eviction order. |
| `ContentCaches.ContentCache.EvictableEntries` | src/immich_on_demand/content_cache.py:463-471 | Lists exactly the idle unpinned entries in eviction order. |
| `ContentCaches.ContentCache.EvictToLimits` | src/immich_on_demand/content_cache.py:228-264 | The running totals take away exactly the prefix that the specification stops at. |
| `ContentCaches.ContentCache.Reclaimable` | src/immich_on_demand/content_cache.py:463-475 | Adds up exactly what evicting the whole list would free. |
| `ContentCaches.ContentCache.MakeRoom` | src/immich_on_demand/content_cache.py:476-488 | Evicts the least prefix for which the asset fits. |
| `ContentCaches.ContentCache.Reserve` | src/immich_on_demand/content_cache.py:440-490 | Reserves and evicts as specified, or changes nothing. |
| `ContentCaches.ContentCache.Touch` | src/immich_on_demand/content_cache.py:382-391 | The file's access time is now, its size, digest and time of change stay, and it is remembered as valid for this asset. |
| `ContentCaches.ContentCache.LeaveOwned` | src/immich_on_demand/content_cache.py:191-198 | The end of a hydration that was registered takes away its registration, reservation and temporary file. |
| `ContentCaches.ContentCache.Admit` | src/immich_on_demand/content_cache.py:182-188 | Starts a download with a reservation, or ends the hydration. |
| `ContentCaches.ContentCache.RejectOwned` | src/immich_on_demand/content_cache.py:179-188 | Discards an invalid file before a download, or ends with a busy error. |
| `ContentCaches.ContentCache.Hydrate` | src/immich_on_demand/content_cache.py:155-190 | Up to its first await: a whole copy is a success with its access time set and its bytes left, and every other case ends, waits, hashes or downloads as the file and the limits say. |
| `ContentCaches.ContentCache.Verdict` | src/immich_on_demand/content_cache.py:325-360 | Absent, invalid, valid or to be hashed, as the file and the remembered validation say. |
| `ContentCaches.ContentCache.Again` | src/immich_on_demand/content_cache.py:162-174 | A waiter tries again only if it may. |
| `ContentCaches.ContentCache.RejectWaited` | src/immich_on_demand/content_cache.py:162-174 | A waiter that finds an invalid file discards it first. |
| `ContentCaches.ContentCache.AfterWait` | src/immich_on_demand/content_cache.py:157-174 | What a waiter does with the outcome of the hydration that it waited for. |
| `ContentCaches.ContentCache.AfterHash` | src/immich_on_demand/content_cache.py:325-360 | What follows a hash in the worker thread: the file is taken only if it is still the one that was read. |
| `ContentCaches.ContentCache.Receive` | src/immich_on_demand/content_cache.py:281-299 | A chunk is counted if it fits the size and the floor, otherwise the download fails. |
| `ContentCaches.ContentCache.Install` | src/immich_on_demand/content_cache.py:300-323 | Only a download of the right size and checksum is put in place, whole. |
| `Manifests.SafeNameIsFixedPoint` | src/immich_on_demand/uploads.py:1192-1379 | The names that the validator accepts are the fixed points of safe_filename within 255 bytes. |
| `Manifests.BeginInv` | src/immich_on_demand/uploads.py:331-404 | A new draft satisfies the invariant. |
| `Manifests.CallKeepsInv` | src/immich_on_demand/uploads.py:474-884 | Every queue call, whether it succeeds or not, keeps an invariant stronger than the validator. |
| `Manifests.InvSealsTogether` | src/immich_on_demand/uploads.py:1192-1379 | Sealed fields all or none; past the draft all; verified means a replacement with a candidate and an attempt. |
| `Manifests.GuardedCallsWriteValidManifests` | src/immich_on_demand/uploads.py:696-884 | Under the invariant, every call whose guard passes writes a manifest that the validator accepts. |
| `Manifests.RetryNeedsAttempt` | src/immich_on_demand/uploads.py:741-796 | On a manifest that the validator accepts, retry can write its successor if and only if the stronger invariant holds. |
| `Manifests.CandidateNeedsAdmission` | src/immich_on_demand/uploads.py:696-714 | A candidate can be recorded exactly once an attempt has been admitted. |
| `Manifests.ValidatorAcceptsStuckJob` | src/immich_on_demand/uploads.py:1352-1368 | The validator accepts a blocked job with a candidate and no attempt that retry cannot write and no call can reach. |
| `Manifests.CrashedAttemptHasCountZero` | src/immich_on_demand/uploads.py:651-668 | A crash between the two writes of an attempt leaves ATTEMPTING with count 0; the next attempt repairs it. |
| `UploadRuns.StepInv` | src/immich_on_demand/uploads.py:407-471 | Every step of writers, sealers and workers keeps what they know of the payload true. |
| `UploadRuns.PatchedBytes` | src/immich_on_demand/uploads.py:407-415 | After a write of some bytes: the length, the bytes written, all others as they were, and zeros in a gap. |
| `UploadRuns.ResizedBytes` | src/immich_on_demand/uploads.py:417-423 | After a truncation: the size asked for, the old bytes as far as they go, then zeros. |
| `UploadRuns.SealGoesThroughIff` | src/immich_on_demand/uploads.py:433-471 | The last step of a seal goes through if and only if the draft is still the one that was handed out, the manifest the one that was read, and the times of the payload those seen before the hash. |
| `UploadRuns.SealIsExact` | src/immich_on_demand/uploads.py:433-471 | A seal that succeeds writes the draft as pending with the digest, the size and the times of exactly what the payload holds, and changes nothing else. |
| `UploadRuns.ReachableManifestsAreSound` | src/immich_on_demand/uploads.py:1192-1379 | Every manifest of every run satisfies the invariant, and a sealed one matches the payload. |
| `UploadRuns.SealedPayloadNeverChanges` | src/immich_on_demand/uploads.py:897-923 | Once the draft is closed no step of any run changes the payload. |
| `UploadRuns.PayloadInvalidIsNeverWritten` | src/immich_on_demand/uploads.py:633-693 | The verification of a payload only fails for a job that has gone meanwhile, so that no job is ever blocked as PAYLOAD_INVALID. |
| `UploadRuns.WritingRaisesRank` | src/immich_on_demand/uploads.py:696-884 | A call that writes moves the manifest on in an order in which nothing comes back. |
| `UploadRuns.RankRun` | src/immich_on_demand/uploads.py:633-884 | Over every run the manifest only moves on. |
| `UploadRuns.AtMostOneClaim` | src/immich_on_demand/uploads.py:474-528 | Of all interleaved attempts, rename-overs, cancellations and manual retries at one revision at most one succeeds. |
| `UploadRuns.NothingClaimsAnAttempt` | src/immich_on_demand/uploads.py:849-884 | On a job under attempt no cancellation, manual retry or rename-over succeeds. |
| `UploadRuns.AdmissionIsUndisturbed` | src/immich_on_demand/uploads.py:633-669 | No call of anyone writes between the provisional and the admitted write of an attempt. |
| `UploadRecovery.CleanupStaysRemoving` | src/immich_on_demand/uploads.py:1034-1072 | Every state on disk that a cleanup goes through is one that startup finishes, and the last is nothing. |
| `UploadRecovery.StartupFinishesRemoval` | src/immich_on_demand/uploads.py:1381-1452 | Startup finishes any removal that was cut short, without quarantine, and only through states that it could finish again. |
| `UploadRecovery.RemovalSurvivesCrashes` | src/immich_on_demand/uploads.py:1381-1452 | Any number of startups, each crashed anywhere, leave a removal one that can be finished. |
| `UploadRecovery.CutRemovalIsCompleted` | src/immich_on_demand/uploads.py:1034-1107 | A crash at any step of a cleanup, then any crashed startups, then one that ends: the job is gone and not quarantined. |
| `UploadRecovery.OtherPayloadsAreUntouched` | src/immich_on_demand/uploads.py:1381-1452 | Recovery changes no payload of a job that is not being removed, at any of its steps. |
| `UploadRecovery.EntriesAreClassified` | src/immich_on_demand/uploads.py:1381-1452 | Every entry ends up exactly one of valid, quarantined or removed. |
| `UploadRecovery.MarkedOutcome` | src/immich_on_demand/uploads.py:1382-1393 | What becomes of an entry with a removal marker: if the marker can be read and is of a removable job, and the directory holds nothing but a payload, all of it is gone; otherwise the marker stays, in quarantine, and the directory is kept, as a valid job if it can be read and is not over. |
| `UploadRecovery.UnmarkedOutcome` | src/immich_on_demand/uploads.py:1394-1452 | What becomes of one without: a directory that cannot be read stays and is in quarantine, a committed or cancelled job is gone, a draft is blocked as interrupted, and every other job is as it was. |
| `UploadRecovery.RecoveryIsIdempotent` | src/immich_on_demand/uploads.py:1381-1452 | A second startup finds the same and changes nothing. |
| `UploadRecovery.CrashInsideManifestWriteQuarantines` | src/immich_on_demand/uploads.py:1404-1419 | A temporary file left by a crash inside a manifest write puts the job in quarantine. |
| `UploadRecovery.QueueDirectory.FinishMarker` | src/immich_on_demand/uploads.py:1084-1107 | Finishes a removal from its marker, or leaves everything and says so; the disk goes through exactly the listed states. |
| `UploadRecovery.QueueDirectory.CleanupJob` | src/immich_on_demand/uploads.py:1034-1072 | Removes a committed or cancelled job, or changes nothing. |
| `UploadRecovery.QueueDirectory.ScanJob` | src/immich_on_demand/uploads.py:1398-1439 | Classifies one job; an interrupted draft is blocked. |
| `UploadRecovery.QueueDirectory.FinishMarkers` | src/immich_on_demand/uploads.py:1382-1393 | All markers, in any order. |
| `UploadRecovery.QueueDirectory.ScanJobs` | src/immich_on_demand/uploads.py:1394-1443 | All jobs, in any order: exactly the live ones are valid, the doomed ones are kept for cleanup. |
| `UploadRecovery.QueueDirectory.CleanupDoomed` | src/immich_on_demand/uploads.py:1444-1452 | All doomed jobs, in any order. |
| `UploadRecovery.QueueDirectory.RecoverStartup` | src/immich_on_demand/uploads.py:1381-1452 | Every entry ends as the per-entry specification says, with every state of the disk on the way accounted for. |
| `UploadQueues.ValidateManifest` | src/immich_on_demand/uploads.py:1192-1379 | The validator check by check, with its loops, accepts exactly the manifests that the predicate describes. |
| `UploadQueues.ValidateState` | src/immich_on_demand/uploads.py:1300-1379 | So do its checks of the state. |
| `UploadQueues.ValidateSource` | src/immich_on_demand/uploads.py:1236-1272 | So do its checks of what a replacement remembers of its source. |
| `UploadQueues.ValidateText` | src/immich_on_demand/uploads.py:205-213 | A text is accepted exactly if it is not empty, within the limit in bytes, and free of control characters. |
| `UploadQueues.ValidateAlbums` | src/immich_on_demand/uploads.py:1267-1272 | Identifiers are accepted exactly if they are strictly increasing. |
| `UploadQueues.UploadQueue.Begin` | src/immich_on_demand/uploads.py:331-404 | A new empty draft with every field named, exactly if the name is safe, or nothing. |
| `UploadQueues.UploadQueue.WriteDraft` | src/immich_on_demand/uploads.py:407-415 | Byte for byte: the given bytes in the written range of an open draft, the old bytes before and after it, zeros in a gap; nothing of a draft that is not open. |
| `UploadQueues.UploadQueue.TruncateDraft` | src/immich_on_demand/uploads.py:417-423 | Byte for byte: the old bytes up to the new size, then zeros. |
| `UploadQueues.UploadQueue.BlockWriting` | src/immich_on_demand/uploads.py:531-546 | Blocks a draft exactly if it is still open as handed out. |
| `UploadQueues.UploadQueue.HashPayload` | src/immich_on_demand/uploads.py:446-458 | The chunked loop computes the digest of the whole prefix, or fails if the file is shorter. |
| `UploadQueues.UploadQueue.Seal` | src/immich_on_demand/uploads.py:433-471 | Goes through exactly for an open draft, which becomes pending with the digest, size and times of its payload. |
| `UploadQueues.UploadQueue.MarkReplacement` | src/immich_on_demand/uploads.py:474-528 | Goes through exactly for an ordinary draft or pending job at the given revision; name, source and revision are the only fields that change. |
| `UploadQueues.UploadQueue.OpenAttempt` | src/immich_on_demand/uploads.py:608-693 | Both writes and the verification between them: goes through exactly for a pending or attempting job at the given revision, and counts one attempt. |
| `UploadQueues.UploadQueue.VerifySealedPayload` | src/immich_on_demand/uploads.py:1007-1032 | True exactly if the payload is what was sealed. |
| `UploadQueues.UploadQueue.RecordCandidate` | src/immich_on_demand/uploads.py:696-714 | Recorded exactly in an admitted attempt without one, kept exactly if it is the same, and no other field changes. |
| `UploadQueues.UploadQueue.BeginReplacing` | src/immich_on_demand/uploads.py:716-739 | Goes through exactly for a replacement under attempt that has a candidate, which is verified from then on. |
| `UploadQueues.UploadQueue.Retry` | src/immich_on_demand/uploads.py:741-797 | Goes through exactly for a sealed job, by the worker in any state or by the user when settled and at the given revision; back to the state that its candidate and verification call for. |
| `UploadQueues.UploadQueue.Block` | src/immich_on_demand/uploads.py:799-822 | Goes through exactly for a job that is neither a draft nor cancelled, and sets the error. |
| `UploadQueues.UploadQueue.Commit` | src/immich_on_demand/uploads.py:824-847 | Goes through exactly for an ordinary job under attempt that has a candidate and for a replacement that is replacing. |
| `UploadQueues.UploadQueue.Cancel` | src/immich_on_demand/uploads.py:849-885 | Removes the job exactly if it may be cancelled, and never one with a candidate. |
| `UploadQueues.UploadQueue.Remove` | src/immich_on_demand/uploads.py:887-889 | Removes exactly a committed job. |
| `UploadQueues.UploadQueue.NextDue` | src/immich_on_demand/uploads.py:582-601 | A due job than which no other is sooner, or none if none is due. |
| `CatalogTables.InvPassesNamespaceCheck` | src/immich_on_demand/catalog.py:1258-1441 | A catalog that satisfies the invariant passes every clause of the program's own check. |
| `CatalogTables.ListedExactly` | src/immich_on_demand/catalog.py:857-936 | In a valid catalog an asset is listed exactly if it has a size, is not in the trash, not offline, not hidden and no still's video, and then in All, its day, its albums and people, and the favourites if it is one. |
| `CatalogSteps.ClosureIsExact` | src/immich_on_demand/catalog.py:942-970 | The worklist ends with exactly the dated directories above a linked day. |
| `CatalogSteps.DateDirFits` | src/immich_on_demand/catalog.py:621-650 | A date directory that is there has the place and name asked for, and a new one fits. |
| `CatalogSteps.ProjectedStays` | src/immich_on_demand/catalog.py:857-899 | Adding date directories changes nobody's place in the from-scratch projection. |
| `CatalogChanges.ProjectingTheTouchedIsEnough` | src/immich_on_demand/catalog.py:504-521 | Changed rows and the motion targets of old and new rows are enough to project again: no asset that was listed rightly is listed wrongly, and if all were, the links are the from-scratch projection. |
| `CatalogChanges.ProjectingAllIsEnough` | src/immich_on_demand/catalog.py:922-940 | Projecting everything gives the from-scratch projection. |
| `CatalogChanges.TouchedCovers` | src/immich_on_demand/catalog.py:504-521 | The touched set that a refresh collects covers every row and motion target that changed. |
| `CatalogChanges.UpsertKeeps` | src/immich_on_demand/catalog.py:522-565 | An inserted asset gets a fresh inode and a free name, so that no UNIQUE constraint is hit. |
| `CatalogChanges.UpsertsOverlay` | src/immich_on_demand/catalog.py:522-562 | All upserts together overlay the staged rows on what there was. |
| `CatalogChanges.RefreshedRows` | src/immich_on_demand/catalog.py:475-591 | After a refresh exactly the right assets are there, each survivor with its inode and name. |
| `CatalogChanges.RefreshedContents` | src/immich_on_demand/catalog.py:475-591 | After a refresh the contents are the staged ones over what is kept. |
| `CatalogChanges.InodesAreNeverReused` | src/immich_on_demand/catalog.py:612-619 | Over every history of transactions, publications included, an inode once given to an asset is never given to another asset or directory. |
| `CatalogChanges.OldInodesStay` | src/immich_on_demand/catalog.py:612-619 | Over every such history, whoever has an old inode later had it before. |
| `CatalogChanges.PublishedFrame` | src/immich_on_demand/catalog.py:1664-1759 | Apart from the links, a publication under a free retired name keeps the invariant and every inode. |
| `CatalogChanges.PublicationKeepsProjectionIff` | src/immich_on_demand/catalog.py:1760-1767 | A publication leaves the from-scratch projection if and only if the source and the candidate are both, or neither, a still's motion target. |
| `CatalogChanges.PublicationPlaces` | src/immich_on_demand/catalog.py:1760-1767 | From a catalog that may list something wrongly already: a publication leaves every other asset listed as rightly as it was, and the candidate is listed rightly if and only if the source was listed where the candidate belongs. |
| `CatalogChanges.InvIffSound` | src/immich_on_demand/catalog.py:1258-1441 | The catalog is in order if and only if its rows are and every asset is listed where a projection from scratch lists it. |
| `CatalogChanges.RetiredNameClashesIff` | src/immich_on_demand/catalog.py:1696-1701 | The retired name is the source's own, so that the insert hits UNIQUE(name), exactly in the self-marked case. |
| `CatalogChanges.PublicationCanBreakProjection` | src/immich_on_demand/catalog.py:1622-1635 | A Live Photo's video can be replaced, and the candidate is then not listed where a projection from scratch lists it. |
| `CatalogChanges.UploadKeepsLivePhotosIff` | src/immich_on_demand/catalog.py:1516-1597 | An upload leaves the Live Photos in order if and only if the new row fits in with its video and with the stills that it is the video of. |
| `CatalogChanges.TrashKeepsLivePhotos` | src/immich_on_demand/catalog.py:1782-1801 | The trash makes no difference to the Live Photos. |
| `CatalogChanges.PublicationKeepsLivePhotos` | src/immich_on_demand/catalog.py:1599-1780 | A publication keeps the Live Photos in order. |
| `CatalogLookup.LookupAgreesWithChildren` | src/immich_on_demand/catalog.py:1005-1077 | lookup finds exactly the entries that children lists. |
| `CatalogLookup.NodeIs` | src/immich_on_demand/catalog.py:973-1003 | An inode is that of the root, of an active directory or of a listed asset, and of nothing else. |
| `CatalogLookup.ChildIs` | src/immich_on_demand/catalog.py:1047-1077 | What is listed, in terms of the rows: the active directories below and the assets linked there, of a directory that can be entered. |
| `CatalogLookup.LookupElsewhere` | src/immich_on_demand/catalog.py:1005-1045 | In an asset nothing is looked up, and what is not there has no entries. |
| `CatalogLookup.AliasesResolve` | src/immich_on_demand/catalog.py:1079-1109 | Every alias, followed name by name with lookup, leads to its asset. |
| `CatalogLookup.PathIsUnique` | src/immich_on_demand/catalog.py:1079-1109 | The recursive query finds one path for each directory. |
| `CatalogLookup.AliasesAreThePaths` | src/immich_on_demand/catalog.py:1079-1109 | The aliases of an asset are exactly its links' paths with its name. |
| `CatalogLookup.NlinkCountsAliases` | src/immich_on_demand/catalog.py:973-1003 | The reported link count is the number of aliases. |
| `CatalogCollections.RequestedNameIs` | src/immich_on_demand/catalog.py:680-684 | A collection asks for its title, with underscores for slashes, as a safe name, and one without a title for a name made of its identifier. |
| `CatalogCollections.ListableIff` | src/immich_on_demand/catalog.py:699-773 | Collections are accepted exactly if each is given once under a canonical identifier and every pair is of one of them and of an asset of the owner that has a size and is not in the trash, offline or hidden. |
| `Catalogs.Catalog.constructor` | src/immich_on_demand/catalog.py:385-393 | The empty catalog with its fixed directories satisfies the invariant. |
| `Catalogs.Catalog.EnsureDirectory` | src/immich_on_demand/catalog.py:621-650 | Finds or makes the directory; fails exactly if it is known elsewhere or under another name. |
| `Catalogs.Catalog.EnsureDay` | src/immich_on_demand/catalog.py:869-881 | The three date directories of a day exist afterwards. |
| `Catalogs.Catalog.RefreshDateActivity` | src/immich_on_demand/catalog.py:942-970 | A date directory is active exactly if something below it is linked. |
| `Catalogs.Catalog.ActiveDates` | src/immich_on_demand/catalog.py:943-964 | The worklist loop computes exactly the upward closure of the linked days. |
| `Catalogs.Catalog.ProjectAsset` | src/immich_on_demand/catalog.py:857-899 | Afterwards the asset is listed exactly where its fields say, size, trash, offline, visibility and being a still's video included, and nobody else's links have changed. |
| `Catalogs.Catalog.Reproject` | src/immich_on_demand/catalog.py:582-587 | The same for a set of assets, and the date activity with it. |
| `Catalogs.Catalog.SetTrashed` | src/immich_on_demand/catalog.py:1782-1801 | The trash flag alone changes; nobody who was listed rightly is listed wrongly, and a valid catalog stays valid. |
| `Catalogs.Catalog.MarkTrashed` | src/immich_on_demand/catalog.py:1782-1790 | Fails exactly for an unknown asset; otherwise the flag changes, nobody who was listed rightly is listed wrongly, and a valid catalog stays valid. |
| `Catalogs.Catalog.MarkRestored` | src/immich_on_demand/catalog.py:1792-1801 | Fails exactly for an unknown asset; otherwise the flag changes, nobody who was listed rightly is listed wrongly, and a valid catalog stays valid. |
| `Catalogs.Catalog.Upsert` | src/immich_on_demand/catalog.py:1530-1559 | A known asset keeps inode and name, a new one gets fresh ones. |
| `Catalogs.Catalog.AddUploaded` | src/immich_on_demand/catalog.py:1516-1597 | The row is added or updated; nobody who was listed rightly is listed wrongly, and a valid catalog stays valid; the exact condition for the Live Photos. |
| `Catalogs.Catalog.ReplaceNamespace` | src/immich_on_demand/catalog.py:922-940 | Afterwards every asset is listed exactly where its fields say. |
| `Catalogs.Catalog.UpsertAll` | src/immich_on_demand/catalog.py:522-565 | All staged rows in order. |
| `Catalogs.Catalog.FinishStaged` | src/immich_on_demand/catalog.py:475-591 | Succeeds exactly if the Live Photo check passes on the result, otherwise nothing changes; a complete refresh that succeeds leaves a valid catalog whatever was listed wrongly before. |
| `Catalogs.Catalog.RefreshChanged` | src/immich_on_demand/catalog.py:504-587 | An incremental refresh lists nobody wrongly who was listed rightly, so that a valid catalog ends with the from-scratch projection. |
| `Catalogs.Catalog.RefreshComplete` | src/immich_on_demand/catalog.py:489-583 | A complete refresh drops what was not staged and restores the from-scratch projection, even of a catalog that a publication left with something listed wrongly. |
| `Catalogs.Catalog.FindRetiredName` | src/immich_on_demand/catalog.py:1702-1713 | The loop computes the first free retired name. |
| `Catalogs.Catalog.PublishReplacement` | src/immich_on_demand/catalog.py:1599-1780 | Succeeds exactly if its checks pass and the retired name is not the source's own; the whole new state; from any sound catalog all but the candidate stay listed as rightly as they were; a valid catalog stays valid if and only if the motion-target condition holds. |
| `Catalogs.Catalog.ActivateCollection` | src/immich_on_demand/catalog.py:663-687 | One album or person directory, under a free name among its siblings. |
| `Catalogs.Catalog.ActivateCollections` | src/immich_on_demand/catalog.py:797-816 | All of them, in order. |
| `Catalogs.Catalog.WakeCollections` | src/immich_on_demand/catalog.py:774-816 | Exactly the listed collections are active afterwards. |
| `Catalogs.Catalog.ReplaceAlbumPeople` | src/immich_on_demand/catalog.py:689-834 | Succeeds exactly for unique canonical collections and known visible members of the owner; then exactly the given collections are active and the given pairs listed, and any sound catalog has become a valid one. |
| `Catalogs.LonelyStillStopsRefreshes` | src/immich_on_demand/catalog.py:1516-1597 | An upload that is not checked for its video goes through, and then a refresh that stages nothing is rolled back. |
| `Catalogs.MarkedSourceIsRefused` | src/immich_on_demand/catalog.py:1696-1713 | The clash happens: a valid catalog with an uploaded asset whose name carries its own marker, everything else in order, and publish_replacement fails. |
| `SagaSafety.StepInvariant` | src/immich_on_demand/service.py:586-862 | Whatever the server replies, wherever the worker crashes, whatever the user does, and whatever refreshes, other transactions and publications of other jobs come in, every step keeps the saga's invariant. |
| `SagaSafety.WorkInvariant` | src/immich_on_demand/service.py:609-862 | Each step of a run keeps it, and the trace ends with the required evidence at each point. |
| `SagaSafety.UserInvariant` | src/immich_on_demand/uploads.py:741-885 | A user's cancellation, retry or rename-over at any point keeps it, and the source that was renamed over may have changed or gone since it was looked up. |
| `SagaSafety.CrashInvariant` | src/immich_on_demand/uploads.py:1381-1452 | A crash at any point keeps it. |
| `SagaSafety.OtherInvariant` | src/immich_on_demand/catalog.py:1599-1780 | Another job's publication keeps it, be it over this job's own source: it renames a row, puts that one in the trash and adds another under the old name. |
| `SagaSafety.FoundPublished` | src/immich_on_demand/service.py:619-653 | A run finds the candidate published already only after a publication. |
| `SagaSafety.ConfirmedSource` | src/immich_on_demand/service.py:777-792 | The trash step is reached only if all four album lists are the recorded one and the source is unchanged. |
| `SagaSafety.ConfirmedTrash` | src/immich_on_demand/service.py:803-816 | The saga goes on only if the source is seen in the trash, whatever the trash request answered. |
| `SagaGuarantees.RunInv` | src/immich_on_demand/service.py:586-862 | Over every run with lost replies, retries, crashes, other callers and publications of other jobs the invariant holds. |
| `SagaGuarantees.OnlyTrashingTrashes` | src/immich_on_demand/service.py:794-802 | No other step of any run sends a trash request. |
| `SagaGuarantees.TrashIsJustified` | src/immich_on_demand/service.py:727-796 | A trash request is sent only after the same run read the candidate and its marker, made REPLACING durable, read source and candidate albums twice each as recorded, and saw the source unchanged. Field by field: the candidate has the payload's checksum and size, the owner, no library, can be seen, carries the job's marker and shows up as the source does. |
| `SagaGuarantees.PublicationIsJustified` | src/immich_on_demand/service.py:803-829 | A publication happens only after the source was seen in the trash and the candidate was read again and still holds the payload, field by field; it is of exactly that pair, and its rows are those of a publication. |
| `SagaGuarantees.DeletionIsJustified` | src/immich_on_demand/service.py:680-693 | A payload is deleted only because the user cancelled, because the job was committed after its publication or, for an ordinary one, after its row was put into the catalog, or because the source has its content. |
| `SagaGuarantees.AdditionIsJustified` | src/immich_on_demand/service.py:727-740 | Over every run: a row is added only for an ordinary job whose candidate and marker that run has read and which holds the payload; it is exactly the asset that was read, a known row keeps inode and name, and a new one has the next inode and a free name. |
| `SagaGuarantees.CommitIsJustified` | src/immich_on_demand/service.py:737-740 | Over every run: an ordinary job becomes committed only after its candidate's row was put into the catalog. |
| `SagaUploads.StepAdds` | src/immich_on_demand/service.py:727-740 | Every step keeps what this rests on: of the rows that were added the last one is the candidate's wherever the run goes on to commit. |
| `SagaOrdinary.FreshIsGood` | src/immich_on_demand/service.py:586-609 | A pending ordinary job, with nothing on the server for its checksum, is on its way to its end. |
| `SagaOrdinary.EveryStepHelps` | src/immich_on_demand/service.py:695-740 | Against a truthful server every step of an ordinary upload leads closer to its end, or to it. |
| `SagaOrdinary.CrashIsHarmless` | src/immich_on_demand/service.py:586-862 | A crash leaves it on its way, or at its end. |
| `SagaOrdinary.LostReplyIsHarmless` | src/immich_on_demand/service.py:839-840 | So does a reply that is lost, whether or not the request was served. |
| `SagaOrdinary.HistoryIsGood` | src/immich_on_demand/service.py:586-862 | So over every history of steps, lost replies and crashes it is on its way or at its end. |
| `SagaOrdinary.GoingOnFinishes` | src/immich_on_demand/service.py:586-862 | Without further crashes and losses it ends within 13 steps, committed and removed, with its asset in the catalog. |
| `SagaFields.PublishIsPublication` | src/immich_on_demand/catalog.py:1714-1759 | A publication row by row: the source in the trash, under a name that nobody has; the candidate with a new inode, under the source's name and in its albums; and everything else as it was. |
| `SagaFields.UploadMatchesIff` | src/immich_on_demand/service.py:444-457 | A candidate matches exactly if checksum, size, owner, visibility and marker are the job's and it is in no library. |
| `SagaFields.SourceMatchesIff` | src/immich_on_demand/service.py:460-480 | The source matches exactly if it is as the job remembers it, but for the trash and the time that goes with it. |
| `SagaFields.CheckLocalIs` | src/immich_on_demand/service.py:619-666 | A job whose candidate the catalog shows goes on to commit, one whose source it has goes on to read it, and any other is blocked. |
| `SagaFields.ReadSourceIs` | src/immich_on_demand/service.py:668-700 | A source that is not what it was blocks the job, and one that has its content makes an untried job unnecessary. |
| `SagaFields.ReviewedSourceIs` | src/immich_on_demand/service.py:748-816 | What each further reading of the source leads to: trash is requested only of one that is as remembered and in four equal album lists. |
| `SagaFields.BeginIs` | src/immich_on_demand/service.py:599-617 | What a run asks before it does anything: origin, switch, owner, the leave to delete, and where it goes on from. |
| `SagaFields.ReadMarkerIs` | src/immich_on_demand/service.py:727-747 | A candidate that does not hold the payload, or would not show up as the source does, blocks the job. |
| `SagaFields.RereadCandidateIs` | src/immich_on_demand/service.py:817-825 | The same once more after the source was seen in the trash; then it is published. |
| `SagaFields.FailIs` | src/immich_on_demand/service.py:839-851 | No answer means trying again, a refusal blocks the job, and nonsense blocks it only if it has a candidate and is not replacing yet. |
| `SagaFields.TrashingIs` | src/immich_on_demand/service.py:794-802 | A refused trash request blocks the job; after any other reply the source is looked at again. |
| `SagaFields.StoredIs` | src/immich_on_demand/service.py:839-862 | A queue call that succeeds goes on with the new manifest, one that does not fit the job ends the run, and one that would write an invalid manifest blocks the job. |
| `SagaFields.LocalStepsAre` | src/immich_on_demand/service.py:829-838 | A local step that fails blocks the job, only a replacement has a pin to hand over, and a removal that fails leaves the committed job. |
| `SagaFields.PublishableIff` | src/immich_on_demand/catalog.py:1636-1713 | When a publication goes through: source and candidate can be seen, only the source is in the catalog, and nobody has the name that the source gets. |
| `SagaFields.PublishingIs` | src/immich_on_demand/service.py:826-829 | The step publishes exactly then, and otherwise blocks the job with nothing changed. |
| `SagaConvergence.EveryStepHelps` | src/immich_on_demand/service.py:586-862 | Against a truthful server that keeps one asset per checksum every step leads closer to an end, or to it, and never changes which of the two ends it will be. |
| `SagaConvergence.CrashIsHarmless` | src/immich_on_demand/service.py:586-862 | A crash between durable steps leaves a state from which going on leads to the same end, or the end itself. |
| `SagaConvergence.LostReplyIsHarmless` | src/immich_on_demand/service.py:839-840 | So does a reply that is lost at any request, served or not: the job is tried again, or, after the trash request, the source is looked at. |
| `SagaConvergence.StuckRetryIsGood` | src/immich_on_demand/uploads.py:741-797 | A user's retry of a job that was blocked that way leads back into the same run and to the same end. |
| `SagaConvergence.FreshIsGood` | src/immich_on_demand/service.py:586-653 | A pending replacement, with nothing on the server for its checksum, is a state from which all of this holds. |
| `SagaConvergence.RenamableIffUnmarked` | src/immich_on_demand/catalog.py:1696-1713 | The name that publish_replacement takes for the source is free if and only if the source's name is not marked first: full-length, with its own marker of the first ordinal that the others leave free. |
| `SagaConvergence.MarkedNamesAreMarkedFirst` | src/immich_on_demand/catalog.py:1696-1713 | There are names that are marked first. |
| `SagaConvergence.HistoryIsGood` | src/immich_on_demand/service.py:586-862 | So it is over every history of steps, lost replies, crashes and retries, and which end it will be stays decided. |
| `SagaConvergence.HistoryKeepsCandidate` | src/immich_on_demand/service.py:695-726 | Over every history the candidate never changes once recorded, nothing is uploaded after that, and at most one publication happens. |
| `SagaConvergence.GoingOnFinishes` | src/immich_on_demand/service.py:586-862 | Without further crashes and losses the job ends in at most 43 steps. If the source can be renamed and the candidate is not in the catalog yet, it is committed, removed and published exactly once; otherwise it is blocked with LOCAL_STATE_FAILED, with the source in the trash on the server and nothing published. |
| `SagaConvergence.EndsWellIff` | src/immich_on_demand/service.py:820-858 | Over every history from an unpublished job: it ends published only if the source's name is not marked first and the catalog did not have the candidate already, and blocked that way only if one of them is so. |
| `SagaRefresh.RefreshKeepsGood` | src/immich_on_demand/app.py:46-92 | A complete refresh between two runs, whose list of jobs has this one sealed, leaves the job on its way and adds nothing that stands in the way of its publication. |
| `Refresh.ReplacementRefreshPolicy` | src/immich_on_demand/service.py:144-194 | The loop over the jobs computes the policy, or fails where a source is not as its job knows it. |
| `Refresh.PolicyFailsIff` | src/immich_on_demand/service.py:156-172 | There is no policy if and only if some sealed replacement's source is not in the catalog or has another inode; drafts and ordinary uploads have no say. |
| `Refresh.PolicyCoversEveryJob` | src/immich_on_demand/service.py:156-189 | For every sealed job of the snapshot the source's row is preserved, and the candidate is preserved, excluded or known by its signature. |
| `Refresh.Sweep` | src/immich_on_demand/app.py:53-81 | One sweep stages what the policy lets in, lists every identifier and notices duplicates. |
| `Refresh.RefreshCatalog` | src/immich_on_demand/app.py:29-97 | What is committed is a sweep that repeats the one before without duplicates; it fails exactly when no two in a row agree or the policy contradicts itself. |
| `Refresh.ChangedPage` | src/immich_on_demand/app.py:205-229 | A page of changes stages exactly what the policy does not skip. |
| `Refresh.RefreshIncremental` | src/immich_on_demand/app.py:180-230 | All pages of changes do. |
| `Refresh.StagedRows` | src/immich_on_demand/app.py:62-79 | An identifier is staged exactly if some listed asset of that identifier is let in, and under its own identifier. |
| `Refresh.CompleteIsExactly` | src/immich_on_demand/app.py:46-92 | The rows after a complete refresh, in terms of the jobs alone and for any jobs: what a job holds, and of what the server lists all that no job withholds, but for new assets that a job may be waiting for. |
| `Refresh.CompleteRow` | src/immich_on_demand/app.py:62-79 | A row that a job holds is the local one, and any other is the local one or the asset that the server lists. |
| `Refresh.CompleteKeepsRowIff` | src/immich_on_demand/app.py:46-92 | A row outlives every complete refresh, whatever the server lists, if and only if a job of the snapshot holds it. The source of a draft is not held. |
| `Refresh.CompleteKeepsSource` | src/immich_on_demand/app.py:46-92 | So the source of every job that was sealed when the jobs were listed keeps its row, whatever the server lists. |
| `Refresh.CompleteAddsUnpublishedIff` | src/immich_on_demand/app.py:46-92 | An unpublished candidate that the server lists is added if and only if no job of the snapshot has it for its candidate and none without one may be waiting for it. |
| `Refresh.DraftCandidateIsAdded` | src/immich_on_demand/service.py:296-306 | It does happen: a draft that was still open when the jobs were listed, sealed and uploaded meanwhile; the refresh adds its candidate and does not keep its source. |
| `Refresh.CompleteNeverAddsUnpublished` | src/immich_on_demand/app.py:46-92 | So the candidate of a job that was sealed when the jobs were listed is never added unpublished, however far the job has got since. |
| `Refresh.PolicyIsExact` | src/immich_on_demand/service.py:144-194 | For any jobs, drafts included: excluded are exactly the candidates that a job has and the catalog does not show as such, preserved exactly the sources and the shown candidates, and held back by a signature exactly what a job without a candidate may be waiting for. |
| `Refresh.CompleteKeepsPublishedIff` | src/immich_on_demand/app.py:46-92 | A published candidate that the server still lists stays if and only if no job of the snapshot holds it for a candidate that is not published; one that it does not list stays if and only if a job shows it. |
| `Refresh.PublishedCandidateIsDropped` | src/immich_on_demand/app.py:46-92 | It does happen: two jobs with one payload and a lost upload reply, and a complete refresh takes the published candidate away. |
| `Refresh.IncrementalIsExactly` | src/immich_on_demand/app.py:191-230 | The rows after an incremental refresh, with the policy made before the lock on rows that may have changed since: all there are, and exactly the changes that no job holds, withholds or may be waiting for. |
| `Refresh.IncrementalKeepsRowIff` | src/immich_on_demand/app.py:191-230 | A row stays as it is through every incremental refresh if and only if a job of the snapshot held or withheld it when the policy was made. |
| `Refresh.IncrementalAddsUnpublishedIff` | src/immich_on_demand/app.py:191-230 | The exact condition under which an incremental refresh adds an unpublished candidate. |
| `Refresh.IncrementalKeepsSource` | src/immich_on_demand/service.py:271-283 | So the source of every job that was sealed when the jobs were listed stays as it is; and nothing is dropped. |
| `Refresh.IncrementalNeverAddsUnpublished` | src/immich_on_demand/app.py:191-230 | So the candidate of a job that was sealed when the jobs were listed is never added unpublished, whatever has happened to the job and the rows since. |
| `Refresh.RecordedStaysIffShown` | src/immich_on_demand/service.py:156-189 | Among any jobs: the candidate that a job of the snapshot has recorded stays through a complete refresh if and only if the catalog shows it as published for that job. |
| `Refresh.PublishedStaysIffSourceInTrash` | src/immich_on_demand/service.py:173-189 | Among any jobs: while its job is there, a published candidate survives a complete refresh if and only if the source is still in the trash locally or the job is blocked over its candidate. |

## Left out

- HTTP and JSON: a reply is one of success, no answer, nonsense, or refusal.
- SQLite, file modes, ownership, symbolic links, descriptors and `fsync`: a transaction and a completed step on disk are atomic.
- NFC and `PurePath`: names are sequences of code points that are NFC already, the last component is found by the last slash and the suffix by the last dot.
- Identifiers, origins, dates and timestamps: taken as well formed; the server's identifiers are numbers in the queue, the saga and the cache.
- SHA-1: a digest determines the content.
- base64: a checksum is its text with what it decodes to, and the refresh compares the decoded digest, as if the text were canonical.
- Names with more than 10^45 rivals: `Practical` bounds the number of used names so that a marker always fits in 255 bytes.
- Other programs on the cache's disk: free space changes only through the cache.
- ctime: every change of a payload is assumed to raise it.
- ContentCaches.ContentCache.Hydrate: between its awaits it is several steps, which the methods after it take; the task that runs them is not modelled as a coroutine.
- CatalogTables.InvPassesNamespaceCheck: leaves out the format version and the calendar test on date identities.
- ContentCache.transfer_pin and the cleaning of stale downloads at start.
- Manifests: the 4096-byte limit on a manifest file and I/O errors while one is written.
- UploadRecovery: a crash inside a manifest write is one of the starting points of recovery, and not a step of `UploadRuns`.
- UploadQueues.UploadQueue.NextDue: takes one reading of the clock; the delay computed from a second reading, and the back-off times, are not modelled.
- UploadQueues.UploadQueue.OpenAttempt: the object takes both writes at once; what may come in between is in `UploadRuns`.
- Saga: `_process_upload` is a machine over its steps with an explicit program point, and not a class; cancelling and removing a job is one step there, its crash safety is in `UploadRecovery`.
- SagaSafety.StepInvariant: assumes of other jobs that none puts this job's candidate in this job's source's place, as two jobs' markers differ on the server, and of refreshes that they add no candidate there, which `Refresh` proves for jobs that were sealed when the jobs were listed.
- SagaConvergence.GoingOnFinishes: other transactions, and all that the user does but for retrying a blocked job, stay away while the job goes to its end. `SagaSafety` proves that they do no damage, not that the job goes on: another job's publication over the same source blocks it, a refresh that adds the candidate decides its end, and one that knows of the job is harmless (`RefreshKeepsGood`). A lost reply is one that says nothing; one that makes no sense can block a job, as in the code.
- SagaOrdinary.GoingOnFinishes: other transactions and the user stay away there too.
- Refresh: high-water marks, page counts, time windows and the trusted profile; the album and people sweeps, which compare two sweeps as the asset sweeps do.
- Catalogs.Catalog.PublishReplacement: keeps links by directory and asset identity, as the update of the rows does; the checks of the profile are not modelled.
- Catalogs.Catalog.ReplaceAlbumPeople: memberships are a set of pairs, so that a pair that is given twice is not refused; hidden people are not modelled.
- Catalog links: kept by directory identity instead of inode, which the inodes' uniqueness makes the same.
- The staged overlay in filesystem.py, readdir replies and errno values.
- Previews, thumbnails, the command line, the control socket, settings and secrets.
- Migration of a legacy profile and the service lock around a mount claim.
