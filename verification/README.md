# Persistent protocols of the Mite server, modelled and proved in Dafny

The server helps a family support a user remotely. Its state lives in a Postgres database and an object store,
and several callers and background workers change it at once. This project models the protocols that keep that
state consistent and proves them for every run and every interleaving of their steps. `dafny verify dfyconfig.toml`
checks all of it.

## How it is built

Each protocol has a state of tables (`map`s and `set`s), one function per transaction or per statement, and an
`Event` type whose runs interleave them with callers, workers, crashes and lost answers. One invariant is proved
of every event, the theorems follow for all runs. Where the Go code changes state step by step, a class with the
same fields has a method per transaction, written as the code is written, and its `ensures` says that it takes
exactly the step the invariant is proved about.

- `Idempotency`, `Commands`: idempotency records, their SQL statements, and commands that claim a key, work and
  answer in one transaction.
- `Entities`: artifacts, support requests, their validation and the stored JSON responses.
- `ArtifactStore`: uploads (claim in a transaction, PUT outside any, row and answer in another), references, expiry,
  cleanup and deletion. `ArtifactInvariant` has two layers: `Kept`, what the safety of the storage needs, and `Tidy`,
  what holds besides while every upload ends under its own claim. `ArtifactAnswers` is what callers are told, in any
  run at all. `ArtifactRuns`, `ArtifactAvailability` and `ArtifactTimely` are the theorems, `ArtifactServer` the
  methods, `StaleUpload` a run that goes wrong.
- `SupportFlow`, `SupportRuns`, `SupportServer`: requests and sessions, and the images requests refer to.
  `SupportRefinement` shows that these statements do to images what runs of `ArtifactStore`'s transactions do.
- `Guides`, `GuideJobs`, `GuideWorker`, `GuideReview`: generation jobs fenced by their revision, drafts, and the
  review commit.
- `Presence`, `HashFraming`, `MaterialSampling`, `StripedLoad`, `GuideImages`: heartbeats, and the encoding and
  arithmetic cores.

Assumptions, all visible in a `Fair` predicate or in a type: generated IDs are new; SHA-256 is injective, so a
request hash is represented by what it is taken of; row locks are held to the end of a transaction and a
transaction's writes become visible when it commits (READ COMMITTED); a PUT or DELETE whose answer was lost is
applied whole or not at all, then or at any later time; instants are nanoseconds and `timestamptz` columns keep
microseconds. Clocks may go back, except where a theorem says otherwise (`ArtifactTimely`, `Presence.RowIsValid`,
`GuideJobs.TickingIsInTime`).

## Where the code falls short

Three places keep less than the rest of the protocol needs. The model has the code as it is, and for each the exact
condition under which nothing goes wrong.

- The last transaction of a material upload (`server/internal/service/guides.go:662-784`) does not compare the
  record's artifact ID with its own, as the screenshot upload does (`server/internal/service/artifact_support.go:188`).
  An attempt that sleeps for a day, while its record expires, its object is cleaned away and its key is claimed
  anew, registers an image without an object (`StaleUpload.StaleMaterialHasNoObject`). Every available image has its
  object, then and in every continuation, if and only if a registered image's object is secure (stored, with no
  deletion reserved or pending, or with a task that names the row) and a reserved object has no row
  (`ArtifactAvailability.MaterialSafeExactly`); no other step of any kind can break this (`SafetyIsExact`). The
  screenshot's comparison is enough (`ArtifactInvariant.FencedIsSafe`), and so is taking less than a day
  (`ArtifactTimely.TimelyRunKeeps`).
- A support request created from a guide run reads its image without a lock, by a query that finds it only if no
  deletion is reserved (`server/db/generated/guides.sql.go:1058-1067`), and inserts later
  (`server/internal/service/guides.go:1385-1404`). A cleanup that commits in between reserves the image all the same
  (`SupportRuns.ReservedImageGetsReferenced`). Requests refer only to unreserved images if and only if no cleanup
  commits, for such a request's image, between its read and its insert (`SupportRuns.GuideRunImagesExact`). The
  deletion worker then erases the object and is refused the row by the foreign key, for ever
  (`ArtifactRuns.DeletionMeetsNoReference`, `ReferencedForever`).
- A worker whose clock has gone back behind its job's start cannot record how the attempt ended: a CHECK of the table
  aborts the transaction, and the job goes on as running until a restart. The worker saves its drafts if and only if
  its clock is not behind the rows (`GuideJobs.SuccessSavesOutputs`), which a clock that does not go back never is
  (`TickingIsInTime`).

In the first two cases the database goes on referring to an image that cannot be fetched.

## Model

| member | source | states |
|---|---|---|
| Idempotency.NewInProgress | server/internal/service/idempotency.go:55-71 | a new record is valid, refuses its own repetition as in progress now, and can be taken over once the lease of two minutes is over |
| Idempotency.DomainCompletionIsTheRow | server/internal/service/idempotency.go:73-93 | the row the UPDATE writes is the completion the domain computes at the whole microsecond; with any clock they differ in the two instants only, by less than a microsecond, and both are valid |
| Idempotency.RunKeepsValid | server/internal/domain/idempotency.go:145-168 | every stored record satisfies its validation after any run of the five SQL statements |
| Idempotency.CompletedIsFrozen | server/db/generated/artifact_support.sql.go:485-499 | a completed record never changes; only a cleanup whose clock is a full day past the completion removes it |
| Idempotency.TakeOverMatchesSql | server/internal/service/idempotency.go:23-53 | with a nanosecond clock and microsecond columns the evaluation answers TakeOver exactly when the guarded UPDATE finds its row |
| Idempotency.AcquireOutcome | server/internal/service/artifact_support.go:631-672 | every answer of a claim and the record it leaves; "in progress" is answered only while the lease lies ahead, so the branch after an empty takeover is unreachable |
| Idempotency.ReleasedIsFree | server/db/generated/idempotency.sql.go:328-336 | after a release the next repetition takes the key over at once; answered records and all others stay as they are |
| Idempotency.ExpiresAfterADay | server/db/generated/artifact_support.sql.go:485-499 | a cleanup deletes a record exactly if a day has passed since its completion or, without one, since its creation |
| Commands.RunSettles | server/internal/service/guides.go:185-275 | commands that answer in their own transaction never leave a record in progress, whatever their work comes to |
| Commands.RepetitionIsHarmless | server/internal/service/artifact_support.go:304-395 | once answered, a repetition under the same key gets that very answer and changes nothing, a different request is refused, whatever runs in between, until a cleanup a day later |
| Commands.StepSettles | server/internal/service/artifact_support.go:674-695 | whether the work commits, ends in a stored business error or aborts, every record is valid and completed afterwards |
| Commands.PerformEffect | server/internal/service/artifact_support.go:304-395 | under a free key a committed command's work is done and its answer stored, a business error is stored and changes nothing else, an abort leaves nothing; under a stored key nothing changes |
| Commands.RunEffect | server/internal/service/artifact_support.go:304-395 | over any run the world is the initial one with the committed works of the free keys done in order, and nothing else |
| Commands.DoneOnce | server/db/generated/artifact_support.sql.go:485-499 | under one key no two works are done in any run unless a cleanup's clock has read a full day after the first in between |
| Entities.StorageKeyInjective | server/internal/domain/artifact_support.go:10-12 | storage keys made from slash-free IDs are equal only for the same owner and artifact |
| Entities.ArtifactReplay | server/internal/service/artifact_support.go:885-909 | decoding the stored response of a valid artifact gives back the artifact, its omitted storage key included, and passes validation |
| Entities.RequestReplay | server/internal/service/artifact_support.go:911-958 | decoding the stored response of a valid support request gives back the request, whichever optional members it has |
| ArtifactStore.RetryDelay | server/internal/service/artifact_cleanup.go:178-190 | the delay doubles from one second and stops at 2048 seconds, so the one-hour cap is never met |
| ArtifactServer.Server.AcquireIdempotency | server/internal/service/artifact_support.go:631-672 | insert if absent, lock, evaluate, take over: statement by statement the claim that is reasoned about |
| ArtifactServer.Server.TakeOverIdempotency | server/db/generated/idempotency.sql.go:357-369 | a takeover renews the lease and keeps an artifact ID once chosen |
| ArtifactServer.Server.ReleaseIdempotency | server/db/generated/idempotency.sql.go:328-336 | a release ends the lease of whoever holds it |
| ArtifactServer.Server.CompleteIdempotency | server/db/generated/artifact_support.sql.go:77-92 | a completion takes effect exactly on a record in progress |
| ArtifactServer.Server.BeginUpload | server/internal/service/artifact_support.go:142-155 | the first transaction of an upload, and the replay its caller is given |
| ArtifactServer.Server.PutFailed | server/internal/service/artifact_support.go:156-170 | a definite storage failure ends the lease at once, so that a repetition can take over; an unknown outcome leaves it running; the attempt ends either way |
| ArtifactServer.Server.FinishScreenshot | server/internal/service/artifact_support.go:172-219 | the caller is given the row just inserted, which happens exactly under a current claim with a free row; or the artifact that its completed record decodes to; or an error, and then no table has changed; and every answer is on record for its key |
| ArtifactServer.Server.CreateArtifact | server/internal/service/artifact_support.go:95-220 | an undisturbed upload from end to end: under a free or abandoned key its caller gets the row that is then there with its object; under an answered key the stored artifact; else an error and nothing changes; after a failed PUT the lease is over or runs on, as the failure was definite or not |
| ArtifactServer.Server.FinishMaterial | server/internal/service/guides.go:662-784 | the last transaction of a material upload, outcome by outcome: a refused, unfitting or repeated capture reserves its object and adds no row; a registered one adds exactly its row; a completed record's status is replayed; else nothing changes |
| ArtifactServer.ReplyIsStored | server/internal/service/guides.go:666-784 | whatever status the caller is told, other than for a capture out of bounds, is what the record answers to every repetition |
| ArtifactServer.Server.ScheduleArtifactCleanup | server/internal/service/artifact_cleanup.go:23-94 | the two loops of a cleanup are a run of reservations and expiries; the counts are how often they ask for a task and how many records are gone |
| ArtifactServer.Server.ReserveIfStale | server/internal/service/artifact_cleanup.go:33-61 | an image gets a task exactly if it is a screenshot a day old without any reference or task; the task names it and is due at once |
| ArtifactServer.Server.DeleteExpiredRecord | server/internal/service/artifact_cleanup.go:64-87 | a record goes exactly if it has expired, and exactly an unanswered upload that had chosen its ID leaves a task for its object |
| ArtifactServer.Server.RecoverArtifactDeletionTasks | server/internal/service/artifact_cleanup.go:96-107 | recovery makes every running task pending again and counts them |
| ArtifactServer.Server.MarkNextRunning | server/internal/service/artifact_cleanup.go:116-131 | exactly a waiting task whose time has come is marked running, its attempt counted, and copied by its worker |
| ArtifactServer.Server.FinishArtifactDeletion | server/internal/service/artifact_cleanup.go:139-168 | after a successful DELETE the row goes, then the task; if storage, the foreign key or the database refuses, the task is put back with its delay |
| ArtifactInvariant.BeginUploadKeeps | server/internal/service/artifact_support.go:142-155 | claiming, taking over and replaying keep both layers of the invariant |
| ArtifactInvariant.FinishScreenshotKeeps | server/internal/service/artifact_support.go:172-215 | the last transaction of a screenshot upload keeps both layers, also for an attempt overtaken or outlived by its record |
| ArtifactInvariant.ExpireRecordKeeps | server/internal/service/artifact_cleanup.go:64-87 | deleting an expired record, and reserving the object of an abandoned upload, keep both layers |
| ArtifactInvariant.FinishDeletionKeeps | server/internal/service/artifact_cleanup.go:150-158 | the deletion of row and task keeps both layers, also by a second worker of the same task and where the foreign key refuses it |
| ArtifactInvariant.MaterialExact | server/internal/service/guides.go:662-784 | the last transaction of a material upload keeps the whole invariant, answers included, if and only if the record's artifact ID is its own where it registers, and the reserved object has no row, or is reserved already, where it cleans up |
| ArtifactInvariant.MaterialSafeKeeps | server/internal/service/guides.go:662-784 | it keeps the storage safe, whichever claim the record is of, if the registered object is secure and the reserved one has no row |
| ArtifactInvariant.FencedIsSafe | server/internal/service/artifact_support.go:188-190 | the comparison that the screenshot upload makes is enough for both of these conditions |
| ArtifactRuns.RunKeeps | server/internal/service/artifact_support.go:95-220 | both layers hold after every run of uploads, crashes, late storage answers, references, cleanups and deletions whose material uploads end under their own claim |
| ArtifactRuns.RunKept | server/internal/service/artifact_support.go:95-220 | the safety of the storage holds after every run whose material uploads are safe where they end |
| ArtifactRuns.AvailableHasItsObject | server/db/generated/artifact_support.sql.go:325-334 | in every state of a safe run an artifact that can be fetched has its object in storage, of its size, digest and dimensions |
| ArtifactAvailability.MaterialSafeExactly | server/internal/service/guides.go:662-784 | after the last transaction of a material upload every available image has its object, now and in every safe continuation, if and only if the registered object is secure and the reserved one has no row or is reserved already |
| ArtifactAvailability.SafetyIsExact | server/internal/service/guides.go:662-784 | any step of any kind that extends a safe run leaves every available image its object, now and ever after, if and only if it is no unsafe end of a material upload |
| ArtifactRuns.ExactlyOnce | server/internal/service/artifact_support.go:142-215 | in any run: the ID is chosen once, rows have the claimed picture, a screenshot's claim has at most one row, all successful callers of a claim are told the same; no claim has two rows, and a new material is its own claim's, if uploads end under their own claim |
| ArtifactRuns.ReplayNeverFails | server/internal/service/artifact_support.go:885-909 | in any run a completed screenshot record decodes to the artifact of its own claim |
| ArtifactRuns.StaleScreenshotWritesNothing | server/internal/service/artifact_support.go:188-190 | an attempt whose record was expired and recreated changes no record, row, task or object |
| ArtifactRuns.CurrentInsertIsFree | supabase/migrations/20260904000100_create_mite_schema.sql:17-32 | the insert of a current claim meets neither its primary key nor its unique storage key |
| ArtifactRuns.DeletionMeetsNoReference | server/db/generated/artifact_support.sql.go:284-287 | the DELETE without a reference check is refused by a foreign key exactly if a request from a guide run took the image while it was reserved, and meets no other reference |
| ArtifactRuns.AbandonedIsReserved | server/internal/service/artifact_cleanup.go:69-82 | expiring an unanswered upload leaves its object reserved for deletion |
| ArtifactRuns.UploadCompletes | server/internal/service/artifact_support.go:142-219 | an undisturbed upload under a new key, or one that takes an abandoned claim over, ends with an available image, its object, its caller's answer and a record that replays it |
| ArtifactRuns.LostAnswerLeavesObject | server/internal/service/artifact_support.go:156-170 | why an unknown outcome keeps the lease: a PUT whose answer was lost may arrive when nobody works on the upload any more, and leaves an object without a row |
| ArtifactRuns.StaleIsReserved | server/internal/service/artifact_cleanup.go:33-61 | cleanup makes a stale unreferenced image unavailable at once, by a due task that names it |
| ArtifactRuns.DeletionRemovesItsKey | server/internal/service/artifact_cleanup.go:112-168 | an undisturbed deletion removes exactly the object, row and task of its key, or only the object if the image was taken while it was reserved |
| ArtifactRuns.RefusalIsAnswered | server/internal/service/guides.go:570-589 | an upload whose batch cannot be used completes its record with the refusal and its status, and changes nothing else |
| ArtifactRuns.PromotedStays | server/db/generated/guides.sql.go:2187-2195 | a material that a saved guide uses becomes a guide step, and is available with its object in every later state |
| ArtifactRuns.DroppedIsReserved | server/internal/service/guide_review.go:165-174 | a dropped material leaves its batch and is unavailable at once, by a due task that names it |
| ArtifactRuns.PinnedForever | server/internal/service/artifact_cleanup.go:33-61 | an image that a reference took unreserved keeps its row and object and is never reserved |
| ArtifactRuns.ReferencedForever | server/internal/service/guides.go:1385-1404 | an image once referenced keeps its row for ever, and is available in every later state if and only if no request from a guide run took it while it was reserved |
| ArtifactTimely.OnTimeIsFenced | server/internal/service/guides.go:662-679 | within a day of its claim a material upload still finds its own artifact ID in the record |
| ArtifactTimely.TimelyRunKeeps | server/db/generated/artifact_support.sql.go:485-499 | with a clock that does not go back and material uploads that take less than a day the invariant holds in every run |
| ArtifactTimely.TimelyUploadsAreSafe | server/db/generated/artifact_support.sql.go:485-499 | so with such clocks and uploads every available artifact has its object, whatever else interleaves |
| StaleUpload.StaleMaterialHasNoObject | server/internal/service/guides.go:662-784 | a run from the empty state to an available image that storage does not have |
| SupportServer.Server.CreateSupportRequest | server/internal/service/artifact_support.go:314-379 | a request is created exactly if the user has no live one and the image is there and not reserved; what else is answered, and that nothing else changes |
| SupportServer.Server.CreateSupportRequestFromGuideRun | server/internal/service/guides.go:1344-1404 | when nothing comes in between, a request from a guide run is created under the same conditions as any other |
| SupportServer.Server.CancelSupportRequest | server/internal/service/artifact_support.go:563-588 | exactly a pending request without a session, at its revision, is cancelled, and no other row changes |
| SupportServer.Server.CallUser | server/internal/service/support_sessions.go:110-142 | exactly for a pending request without a session, at its revision, a call creates a ringing session and attaches it |
| SupportServer.Server.AcceptCall | server/internal/service/support_sessions.go:196-207 | exactly with full consent, and for a ringing session with its pending request at its revision, both move on, and no other row changes |
| SupportServer.Server.ResolveSession | server/internal/service/support_sessions.go:232-243 | exactly an active session with its request in support, at its revision, is resolved: with a guide to come it goes on generating one, without one it has ended as skipped; the request is resolved, no other row changes |
| SupportServer.Server.EndSessionWithoutGuide | server/internal/service/support_sessions.go:292-330 | exactly who may give up a guide, when and for which reason, and the row that is left; the reason is one that the session's state admits |
| SupportServer.Server.EndSavedSession | server/internal/service/end_support_session.go:34-70 | exactly a session whose guide was saved, at its revision, is ended this way |
| SupportFlow.NoOpenIsNotLive | server/internal/service/artifact_support.go:331-346 | no active request and then no open session mean that the user has no live request |
| SupportFlow.LockImageKeeps | server/db/generated/artifact_support.sql.go:684-689 | locking the image row keeps the invariant: no cleanup holds the row at the same time |
| SupportFlow.InsertRequestKeeps | server/internal/service/artifact_support.go:371-379 | inserting a request keeps the invariant: one live request per user, and its image unreserved |
| SupportFlow.AcceptKeeps | server/internal/domain/support_session_rules.go:26-35 | accepting keeps requests and sessions in step |
| SupportFlow.ResolveKeeps | server/internal/domain/support_session_rules.go:37-46 | resolving keeps requests and sessions in step |
| SupportFlow.SessionStepRow | server/internal/domain/support_session_rules.go:48-95 | each transaction on the session of a resolved request writes one row, which passes the CHECK of its table, and no ended one |
| SupportFlow.CommitCleanupKeeps | server/internal/service/artifact_cleanup.go:33-61 | committing the tasks of a cleanup, whose listing and two checks are separate statements, reserves no image of a plain request |
| SupportRuns.CleanupChecksExactly | server/internal/service/artifact_cleanup.go:33-61 | which images a cleanup transaction locks, finds without references, finds without a task and reserves: each exactly under its own check |
| SupportRuns.DeletesUnreferenced | server/internal/service/artifact_cleanup.go:150-158 | the last transaction of a deletion removes a row exactly if it is reserved, no request refers to it and nobody holds it |
| SupportRuns.RunKeeps | server/internal/service/artifact_support.go:304-395 | the invariant holds after every interleaving of the statements |
| SupportRuns.OneLiveRequest | server/internal/service/artifact_support.go:331-346 | in every reachable state a user has at most one live request |
| SupportRuns.InLockstep | server/internal/domain/support_session_rules.go:5-46 | RINGING goes with PENDING, ACTIVE with IN_SUPPORT, every later session status with RESOLVED, both ways |
| SupportRuns.InsertMeetsNoLive | supabase/migrations/20260904000100_create_mite_schema.sql:94-96 | an insert about to happen meets no live request of its user, so the unique index cannot refuse it |
| SupportRuns.StepContinues | server/internal/domain/status.go:17-20 | a request never disappears or changes its image, and its status moves as the domain allows |
| SupportRuns.SessionFollowsTable | server/internal/domain/status.go:72-87 | every step moves a session only along the domain's transitions and ends it only for a reason its state admits, though the services check each command's own condition and neither table |
| SupportRuns.RowsPassCheck | supabase/migrations/20260909000100_continue_support_after_guide_save.sql:25-109 | in every reachable state every session row passes the CHECK of its state, so it refuses none of the UPDATEs |
| SupportRuns.GuideStepsExactly | server/internal/service/guide_review.go:80-89 | each step of a session on the way to its guide happens exactly under its service's condition, and writes that session's row only |
| SupportRuns.HelpEndsWithItsGuide | server/internal/service/support_sessions.go:77-243 | from any state: a waiting request that is called, accepted, resolved with a guide, collected, generated and reviewed ends resolved, its session with that guide, and nothing else has changed |
| SupportRuns.ReferencedImageStays | server/internal/service/artifact_cleanup.go:33-61 | the image of a plain request keeps its row and is never reserved, in every later state of every run |
| SupportRuns.InsertFromRunExact | server/internal/service/guides.go:1385-1404 | one insert from a guide run keeps all referenced images unreserved if and only if its own image is unreserved then |
| SupportRuns.StepClear | server/internal/service/guides.go:1385-1404 | no other step makes a clear state unclear, and none makes an unclear state clear again |
| SupportRuns.GuideRunImagesExact | server/db/generated/guides.sql.go:1058-1067 | after every run: requests refer only to unreserved images if and only if no cleanup committed, for its image, between the read and the insert of a request from a guide run |
| SupportRuns.ReservedImageGetsReferenced | server/internal/service/guides.go:1385-1404 | the race happens: the read finds the image, a whole cleanup commits, the insert succeeds |
| SupportRefinement.StepSimulated | server/internal/service/artifact_support.go:347-379 | every statement of the flow, but an upload, is matched by a run of the artifact protocol's transactions on the same rows, reservations and references |
| SupportRefinement.FlowRefines | server/internal/service/artifact_cleanup.go:33-61 | so is every run, and a request refers to a reserved image after the one exactly if a reference strayed in the other |
| SupportRefinement.UploadMatches | server/internal/service/artifact_support.go:172-215 | the last transaction of a screenshot upload is the flow's upload |
| Guides.ValidateGuideDraftContent | server/internal/domain/guide.go:236-255 | the checking loop accepts exactly one to eight steps numbered from one with a text and an allowed image |
| Guides.ValidateGeneratedGuides | server/internal/domain/guide.go:257-279 | the checking loops accept exactly non-empty lists of guides with a title, one to eight instructions and images that were given to the generator; numbers are taken from the places |
| GuideWorker.Store.ClaimJob | server/db/generated/guides.sql.go:133-154 | exactly a queued job, unless the clock is behind its row, is claimed: running, one attempt and one revision on, and its worker has that revision |
| GuideWorker.Store.RecoverJobs | server/db/generated/guides.sql.go:2224-2235 | recovery leaves no job running, unless the clock is behind a row, and then changes nothing |
| GuideWorker.Store.RecoverRow | server/db/generated/guides.sql.go:2224-2235 | a running job with fewer than three attempts is queued again, one with three is failed as interrupted, any other row stays |
| GuideWorker.Store.FailJob | server/internal/service/guide_worker.go:335-361 | a failure is recorded exactly by the worker that still holds the job with a clock that is not behind its row, and in its row only |
| GuideWorker.Store.SaveDrafts | server/internal/service/guide_worker.go:363-412 | a success creates one draft per guide in order and moves job and session together, only for the worker that still holds the job; a refused CHECK rolls all of it back |
| GuideWorker.Store.FinishAttempt | server/internal/service/guide_worker.go:165-185 | output that is empty, malformed or shows an image it was not given becomes a failure, any other is saved |
| GuideWorker.Store.RetryJob | server/internal/service/guides.go:912-932 | exactly a failed job at its revision with fewer than three attempts, whose session waits for it, is queued again, though the UPDATE has no guard |
| GuideJobs.RunKeeps | server/internal/service/guide_worker.go:59-185 | the invariant of jobs, sessions, drafts and workers holds after every run, restarts included |
| GuideJobs.JobSessionDrafts | server/internal/service/guide_worker.go:374-404 | a job has succeeded exactly when its session is under review; then drafts are numbered 1, 2, ... in generation order and both point to the first |
| GuideJobs.SuccessSavesOutputs | server/internal/service/guide_worker.go:377-404 | a worker that still holds its job saves valid output as it is, one draft per guide in order, and moves job and session, if and only if its clock is not behind the rows; else it only stops |
| GuideJobs.DraftsAreWellFormed | server/internal/domain/guide.go:236-279 | over any run, whatever the generator answers and however drafts are edited, every stored draft has a title and one to eight numbered steps with instructions of the right lengths |
| GuideJobs.TickingIsInTime | supabase/migrations/20260904000100_create_mite_schema.sql:265-266 | with a clock that does not go back no CHECK on instants ever refuses a step |
| GuideJobs.Fencing | server/internal/service/guide_worker.go:335-412 | an overtaken worker changes nothing whatever it brings, and at most one worker holds a job |
| GuideJobs.LostForever | server/internal/service/guide_worker.go:335-412 | a worker that does not hold its job never holds it again under that claim, and in every later state each of its endings changes nothing |
| GuideJobs.JobBounds | supabase/migrations/20260904000100_create_mite_schema.sql:245-296 | at most three claims, one creation of drafts and revision nine per job; a queued job has an attempt left; every row passes the table's CHECKs, instants included |
| GuideJobs.ThirdAttemptIsReached | server/internal/service/guides.go:912-932 | the bounds are reached: a run from the empty state in which a job fails twice, is retried twice and is claimed a third time; after that attempt no retry is accepted |
| GuideJobs.BatchQueuesOneJob | server/internal/service/guides.go:795-863 | a completed batch queues exactly one job, and exactly if its session is to get a guide and has no job yet |
| GuideJobs.EditsOneDraft | server/internal/service/guides.go:967-1030 | an edit is accepted exactly for a draft under review at its revision with valid content, and changes that content only |
| GuideJobs.GivingUpCleansUp | server/internal/service/support_sessions.go:292-371 | giving a guide up, refused while its job is at work, leaves the session ended without job or drafts and everybody else's rows as they were |
| GuideJobs.ReviewSavesAll | server/internal/service/guide_review.go:136-190 | completing a review saves every draft as it was edited, ends the session, deletes its job and touches nobody else's rows |
| GuideJobs.StepProgress | server/internal/domain/status.go:103-125 | every change of a job row is one the domain allows, raises its revision by one and lowers a well-founded measure |
| GuideJobs.AtMostEightChanges | server/db/generated/guides.sql.go:2269-2279 | a new job's row changes at most eight times in any run |
| GuideReview.CollectRevisions | server/internal/service/guide_review.go:51-60 | the loop rejects exactly commands with an invalid ID, a repeated draft or a revision below one, and otherwise maps each draft to its revision |
| GuideReview.CheckDraftSet | server/internal/service/guide_review.go:90-105 | the checks pass exactly if the command's pairs are the session's whole draft set, all being edited, at their revisions |
| GuideReview.Pigeonhole | server/internal/service/guide_review.go:94-105 | equally many drafts as named ones, each of them named, leave no name over |
| GuideReview.Store.CompleteGuideReview | server/internal/service/guide_review.go:44-115 | a review is completed exactly if the session is under review at its revision, the command names all its drafts as they stand, and each has a title and one to eight numbered steps on the unreserved screenshot or unreserved materials of the session; otherwise nothing changes |
| GuideReview.Store.PersistReviewedDrafts | server/internal/service/guide_review.go:119-191 | the commit happens exactly if all drafts have valid texts and numbers and show only the session's own unreserved images, and leaves the tables the conservation theorems are about |
| GuideReview.Store.SaveOneDraft | server/internal/service/guide_review.go:136-164 | one draft becomes a guide with the same steps, each image promoted when first used |
| GuideReview.Store.QueueUnused | server/internal/service/guide_review.go:165-174 | every unused image gets a deletion task, an existing one is kept |
| GuideReview.MaterialsConserved | server/internal/service/guide_review.go:119-191 | each material is either used, promoted and unreserved, or unused, unchanged and reserved |
| GuideReview.ScreenshotUntouched | server/db/generated/guides.sql.go:2187-2195 | the initial screenshot is neither promoted nor queued |
| GuideReview.StepsKeepTheirImages | server/db/generated/guides.sql.go:1630-1652 | no step of a reviewed draft, and so of its guide, points at an image that is gone or reserved |
| GuideReview.GuidesMatchDrafts | server/internal/service/guide_review.go:136-190 | new guides and drafts correspond one to one in order, the session ends with the first guide, and its job and materials are gone |
| GuideReview.OthersUntouched | server/internal/service/guide_review.go:119-191 | no row, draft, material, batch or job of another session changes, nor any guide that was there |
| GuideReview.OtherImagesUntouched | server/internal/service/guide_review.go:165-174 | images that are no materials of the session stay as they are, and new tasks are for its own materials only |
| Presence.RowRefinesHistory | server/internal/service/companion.go:75-101 | the row kept one heartbeat at a time equals what the whole history says: the epoch is one more than the gaps, the connection starts after the last one |
| Presence.RowIsValid | server/internal/domain/companion.go:28-38 | with a monotone clock the stored row is valid; offline means silent for too long, online a gap-free connection that is long enough, connecting neither |
| Presence.OneNotificationPerConnection | server/db/generated/companion.sql.go:200-206 | over any run a request's notifications number at most the connections since it was made |
| Presence.OnlineIsAnnounced | server/internal/service/companion.go:101-115 | after a heartbeat that finds the user online the waiting request has been announced for this connection, and otherwise none is; announcements are never forgotten |
| Presence.Companion.RecordHeartbeat | server/internal/service/companion.go:64-119 | the row stays the one its history determines, and a notification follows exactly a newly reserved pair of request and connection |
| Presence.Companion.NotifyRequestCreated | server/internal/service/companion.go:215-239 | a new request is announced exactly if the current connection, or 0, was not yet reserved for it |
| HashFraming.PutUint64 | server/internal/domain/idempotency.go:88-96 | the buffer holds the number's low eight bytes, the most significant first: a number below 2^64 is their positional value |
| HashFraming.HashCanonicalMultipart | server/internal/domain/idempotency.go:69-86 | the bytes written are the framed fields and the framed file hash; an empty field name or a file hash that is no digest is refused |
| HashFraming.DecodePreImage | server/internal/domain/idempotency.go:69-96 | a decoder recovers exactly the fields and the file hash, even with fields called fileSha256 |
| HashFraming.PreImageInjective | server/internal/domain/idempotency.go:69-96 | two requests are hashed over equal bytes exactly if all fields and files agree |
| MaterialSampling.SelectGuideMaterialIndexes | server/internal/domain/guide.go:283-301 | for every total: strictly increasing, in range, of length min(total, 30), from first to last, with gaps that differ by at most one, each at its proportional place rounded down |
| StripedLoad.CollectKeys | server/internal/service/guide_worker.go:198-207 | the screenshot first, then the sampled materials in order, between one and thirty-one images |
| StripedLoad.NoErrorNoGap | server/internal/service/guide_worker.go:209-236 | a load without an error has every slot filled with its own key's prepared bytes, whatever the interleaving and cancellation |
| StripedLoad.SucceedsExactly | server/internal/service/guide_worker.go:209-236 | once all workers have stopped the load succeeds exactly if no worker reported an error and the caller did not give up; the error kept is the first one |
| StripedLoad.CancelledLoadsNoMore | server/internal/service/guide_worker.go:214-228 | an error and a caller who gives up cancel the load, and a cancelled load starts on no further image |
| StripedLoad.DisjointWrites | server/internal/service/guide_worker.go:214-228 | two workers never load the same slot |
| StripedLoad.WorkersStop | server/internal/service/guide_worker.go:214-228 | every step of a worker leaves it less to do |
| GuideImages.FitsTheBox | server/internal/service/guide_worker.go:301-309 | the fitted size is positive, lies in the box and enlarges neither side; an image within the box keeps its size |
| GuideImages.KeepsAspect | server/internal/service/guide_worker.go:301-309 | one side touches the box, the other is the proportional length rounded down, unless clamped to one pixel |
| GuideImages.SampleInBounds | server/internal/service/guide_worker.go:311-322 | every sampled line and column lies in the source |
| GuideImages.SampleAtPlace | server/internal/service/guide_worker.go:311-322 | the sampled line or column is the one at the proportional place, rounded down |
| GuideImages.SampleMonotone | server/internal/service/guide_worker.go:311-322 | sampling keeps the order, and shrinking never takes a line twice |
| GuideImages.ResizeNearest | server/internal/service/guide_worker.go:311-322 | every pixel is the source's pixel at its proportional place within the source's bounds |
| GuideImages.EncodeWithin | server/internal/service/guide_worker.go:283-291 | one image is encoded at most six times, up to the first answer that fits or fails |
| GuideImages.PrepareGuideImage | server/internal/service/guide_worker.go:262-299 | for any encoder: the raw bytes if they fit; else the first answer that fits or is an error, asked six times per size while the image shrinks by a fifth, and no answer only after an error or when the last size is at most 320 wide or 180 high; at most 54 questions |

## Left out

- HTTP handlers, generated OpenAPI code, routing, authentication and role checks, events, logging and configuration.
- Gemini, Supabase, LiveKit and Web Push clients: storage is an abstract bucket that may fail, apply late or stay
  silent, the generator any answer, the encoder any function of the number of calls.
- JPEG decoding and encoding, colour conversion and SHA-256: a picture carries its digest and dimensions.
- Lease exclusivity: a release is not fenced by its owner, so two attempts can run at once; no theorem claims more.
- Objects without a row: an upload that never finishes may leave one behind.
- ArtifactStore.RetryDelay: models the one-hour cap as the unreachable branch that it is.
- ArtifactServer.Server.ScheduleArtifactCleanup: takes the rows that its two queries locked as arguments, because SKIP LOCKED and the
  batch limit let them be any rows; each is checked again as the code does.
- ArtifactServer.Server.MarkNextRunning: takes the due task as an argument; SKIP LOCKED makes it any due task.
- ArtifactServer.Server.FinishMaterial: takes the verdict of the checks on batch, session and captures as an argument; sequence and
  capture time are within the batch or not once and for all, since a batch's bounds never change.
- ArtifactInvariant.MaterialExact: the invariant also ties a record's answer to its own artifact, so its condition is stronger than
  what availability needs, which is in `ArtifactAvailability`.
- ArtifactRuns.RunKeeps: assumes that material attempts reach their last transaction under their own claim; without that it is false (see above).
- Entities.ArtifactReplay: takes the JSON text as faithful; what is shown is that the stored members determine the entity.
- Entities.RequestReplay: the same.
- SupportRuns.ReferencedImageStays: leaves out requests from a guide run, for which it is false (see above).
- SupportRuns.RowsPassCheck: leaves out the CHECKs on a session's instants; a refused UPDATE aborts, as in `GuideJobs`.
- SupportRefinement.FlowRefines: runs over images that are there from the start; one upload more is `UploadMatches`.
- SupportServer.Server.CreateSupportRequest: runs without waiting for a lock; the interleaved statements are in `SupportFlow`. Owner and
  purpose of the image and its errors are left out, since they only end the transaction.
- SupportServer.Server.CreateSupportRequestFromGuideRun: the same; the checks of the run itself, its step and its owner are left out.
- ArtifactServer.Server.CreateArtifact: nothing comes in between (the interleavings are in `ArtifactRuns`); authorisation and the checks of
  the file are left out.
- ArtifactServer.Server.DeleteExpiredRecord: takes the locked record as an argument, see `ScheduleArtifactCleanup`.
- ArtifactServer.Server.ReserveIfStale: takes the locked image as an argument, see `ScheduleArtifactCleanup`.
- Commands.RunEffect: the work of a command is any function of the world, which stands for all tables but the records.
- GuideWorker.Store.ClaimJob: takes the queued job as an argument; SKIP LOCKED makes it any queued job.
- GuideReview.Store.CompleteGuideReview: takes the locked list of drafts as an argument and leaves out authorisation and row locks.
- GuideReview.Store.PersistReviewedDrafts: leaves out instants; a clock behind a stored one aborts the transaction (`GuideJobs.CompleteReview`
  has that refusal).
- Who may call, accept or resolve a session, and revisions given as zero or less, which are refused before anything is read.
- HashFraming.PreImageInjective: holds for names and values shorter than 2^64 bytes, which the length prefix can express.
- Commands.RunSettles: guide commands take an advisory lock first and refuse at once if another holds it; that refusal is left out.
- A record that vanishes between the insert-if-absent and the lock (it expires in between): the code reports an internal error.
- Integer widths: revisions, epochs and attempts are unbounded; image products fit 64 bits for decodable images.
- Acknowledging a request, guide runs, listing and pagination, LiveKit tokens, push subscriptions, `SaveGuideDraft` for a single draft
  (the same commit with one draft), and pixel formats.
