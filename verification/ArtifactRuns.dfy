/** Whole runs of the artifact protocol: what holds in every reachable state, and where the material upload and
    the guide run's request fall short. */
module ArtifactRuns {
  import opened Common
  import opened Entities
  import opened Idempotency
  import opened ArtifactStore
  import opened ArtifactInvariant
  import opened ArtifactAnswers

  /** A material attempt reaches its last transaction only while its own claim is the record's. (The
      screenshot upload checks this itself; see `TimelyRun` for when the material upload needs no check.) */
  predicate Fenced(s: State, e: Event) {
    e.EFinishMaterial? && MaterialProceeds(s, e.attempt) ==>
      s.records[s.attempts[e.attempt].scope].resource == Some(s.attempts[e.attempt].resource)
  }

  /** A material that is registered has its object, and no object of a row is reserved as if it had none. */
  ghost predicate Safe(s: State, e: Event) {
    e.EFinishMaterial? && MaterialProceeds(s, e.attempt) ==> MaterialSafe(s, e.attempt, e.outcome, e.now)
  }

  function Run(s: State, run: seq<Event>): State
    decreases |run|
  {
    if run == [] then s else Run(Next(s, run[0]), run[1..])
  }

  lemma {:induction false} RunConcat(s: State, a: seq<Event>, b: seq<Event>)
    ensures Run(s, a + b) == Run(Run(s, a), b)
    decreases |a|
  {
    hide Next;
    if a == [] {
      assert a + b == b;
    } else {
      RunConcat(Next(s, a[0]), a[1..], b);
      assert (a + b)[1..] == a[1..] + b && (a + b)[0] == a[0];
    }
  }

  /** Any run. */
  predicate FairRun(s: State, run: seq<Event>)
    decreases |run|
  {
    run == [] || (Fair(s, run[0]) && FairRun(Next(s, run[0]), run[1..]))
  }

  /** A run whose material uploads are safe where they end. */
  ghost predicate SafeRun(s: State, run: seq<Event>)
    decreases |run|
  {
    run == [] || (Fair(s, run[0]) && Safe(s, run[0]) && SafeRun(Next(s, run[0]), run[1..]))
  }

  /** A run whose material uploads end under their own claim. */
  predicate Allowed(s: State, run: seq<Event>)
    decreases |run|
  {
    run == [] || (Fair(s, run[0]) && Fenced(s, run[0]) && Allowed(Next(s, run[0]), run[1..]))
  }

  lemma UploadStepKeeps(s: State, e: Event)
    requires Kept(s) && Fair(s, e) && e.OfUpload() && !(e.EFinishMaterial? && MaterialProceeds(s, e.attempt))
    ensures Keeps(s, Next(s, e))
  {
    hide Kept, Tidy, BeginUpload, PutSucceeds, PutFails, LatePut, Release, RefuseMaterial, CrashUpload,
         FinishScreenshot, FinishMaterial;
    match e
    case EBeginUpload(t, scope, upload, candidate, now) => BeginUploadKeeps(s, t, scope, upload, candidate, now);
    case EPutSucceeds(t) => PutSucceedsKeeps(s, t);
    case EPutFails(t, applied, late, definite) => PutFailsKeeps(s, t, applied, late, definite);
    case ELatePut(key, picture) => LatePutKeeps(s, key, picture);
    case ERelease(t, now) => ReleaseKeeps(s, t, now);
    case ERefuseMaterial(t, refusal, now) => RefuseMaterialKeeps(s, t, refusal, now);
    case ECrashUpload(t) => CrashUploadKeeps(s, t);
    case EFinishScreenshot(t, now) => FinishScreenshotKeeps(s, t, now);
    case EFinishMaterial(t, outcome, taskId, now) => MaterialReplayKeeps(s, t, outcome, taskId, now);
  }

  lemma CleanupStepKeeps(s: State, e: Event)
    requires Kept(s) && Fair(s, e) && !e.OfUpload()
    ensures Keeps(s, Next(s, e))
  {
    hide Kept, Tidy, Pin, ReadForRun, TakeForRun, Promote, DropMaterial, ReserveStale, ExpireRecord, MarkRunning,
         EraseSucceeds, EraseFails, LateDelete, Retry, FinishDeletion, RecoverTasks, CrashDeletion;
    match e
    case EPin(id) => PinKeeps(s, id);
    case EReadForRun(tx, id) => ReadForRunKeeps(s, tx, id);
    case ETakeForRun(tx) => TakeForRunKeeps(s, tx);
    case EPromote(id, now) => PromoteKeeps(s, id, now);
    case EDropMaterial(id, taskId, now) => DropMaterialKeeps(s, id, taskId, now);
    case EReserveStale(id, taskId, now) => ReserveStaleKeeps(s, id, taskId, now);
    case EExpireRecord(scope, taskId, now) => ExpireRecordKeeps(s, scope, taskId, now);
    case EMarkRunning(worker, key, now) => MarkRunningKeeps(s, worker, key, now);
    case EEraseSucceeds(worker) => EraseSucceedsKeeps(s, worker);
    case EEraseFails(worker, applied, late) => EraseFailsKeeps(s, worker, applied, late);
    case ELateDelete(key) => LateDeleteKeeps(s, key);
    case ERetry(worker, now) => RetryKeeps(s, worker, now);
    case EFinishDeletion(worker) => FinishDeletionKeeps(s, worker);
    case ERecoverTasks => RecoverTasksKeeps(s);
    case ECrashDeletion(worker) => CrashDeletionKeeps(s, worker);
  }

  lemma OtherStepKeeps(s: State, e: Event)
    requires Kept(s) && Fair(s, e) && !(e.EFinishMaterial? && MaterialProceeds(s, e.attempt))
    ensures Keeps(s, Next(s, e))
  {
    hide Kept, Tidy, Keeps, Next, Fair, Event.OfUpload;
    if e.OfUpload() {
      UploadStepKeeps(s, e);
    } else {
      CleanupStepKeeps(s, e);
    }
  }

  lemma StepKept(s: State, e: Event)
    requires Kept(s) && Fair(s, e) && Safe(s, e)
    ensures Kept(Next(s, e))
  {
    hide Kept, Tidy, MaterialSafe, FinishMaterial;
    if e.EFinishMaterial? && MaterialProceeds(s, e.attempt) {
      MaterialSafeKeeps(s, e.attempt, e.outcome, e.taskId, e.now);
    } else {
      hide Next;
      OtherStepKeeps(s, e);
    }
  }

  lemma StepKeeps(s: State, e: Event)
    requires Inv(s) && Fair(s, e) && Fenced(s, e)
    ensures Inv(Next(s, e)) && Safe(s, e)
  {
    hide Kept, Tidy, ClaimSafe, MaterialSafe, FinishMaterial;
    if e.EFinishMaterial? && MaterialProceeds(s, e.attempt) {
      FencedIsSafe(s, e.attempt, e.outcome, e.now);
      MaterialExact(s, e.attempt, e.outcome, e.taskId, e.now);
    } else {
      hide Next;
      OtherStepKeeps(s, e);
    }
  }

  /** In safe runs the storage stays safe, */
  lemma {:induction false} RunKept(s: State, run: seq<Event>)
    requires Kept(s) && SafeRun(s, run)
    ensures Kept(Run(s, run))
    decreases |run|
  {
    hide Kept, Next, Fair, Safe;
    if run != [] {
      StepKept(s, run[0]);
      RunKept(Next(s, run[0]), run[1..]);
    }
  }

  /** and the whole invariant holds after every run whose material uploads end under their own claim. */
  lemma {:induction false} RunKeeps(s: State, run: seq<Event>)
    requires Inv(s) && Allowed(s, run)
    ensures Inv(Run(s, run)) && SafeRun(s, run)
    decreases |run|
  {
    hide Inv, Next, Fair, Fenced, Safe;
    if run != [] {
      StepKeeps(s, run[0]);
      RunKeeps(Next(s, run[0]), run[1..]);
    }
  }

  lemma {:induction false} RunAnswered(s: State, run: seq<Event>)
    requires Answered(s) && FairRun(s, run)
    ensures Answered(Run(s, run))
    decreases |run|
  {
    hide Answered, Next, Fair;
    if run != [] {
      StepAnswered(s, run[0]);
      RunAnswered(Next(s, run[0]), run[1..]);
    }
  }

  lemma {:induction false} AllowedIsFair(s: State, run: seq<Event>)
    requires Allowed(s, run)
    ensures FairRun(s, run)
    decreases |run|
  {
    hide Next, Fair, Fenced;
    if run != [] {
      AllowedIsFair(Next(s, run[0]), run[1..]);
    }
  }

  // -------------------------------------------------------------------------------- theorems

  /** The content API can return this artifact. */
  predicate Available(s: State, id: Id) {
    id in s.artifacts && s.artifacts[id].storageKey !in s.tasks
  }

  /** In every state of a safe run each available artifact has exactly its own bytes in storage. (That the run
      is safe is not only enough: see `ArtifactAvailability`.) */
  lemma AvailableHasItsObject(run: seq<Event>, id: Id)
    requires SafeRun(EMPTY, run) && Available(Run(EMPTY, run), id)
    ensures var s := Run(EMPTY, run); var row := s.artifacts[id];
            && row.storageKey in s.objects
            && |s.objects[row.storageKey].bytes| == row.byteSize
            && s.objects[row.storageKey].sha256 == row.sha256
            && s.objects[row.storageKey].width == row.width && s.objects[row.storageKey].height == row.height
  {
    EmptyInv();
    RunKept(EMPTY, run);
    var s := Run(EMPTY, run);
    assert ContentOk(s.claims, s.artifacts[id].storageKey, s.objects[s.artifacts[id].storageKey]);
  }

  /** In any run at all: a claim chose its artifact ID once; rows carry the claimed picture, a screenshot's claim
      has at most one; all successful callers of one claim were answered the same, screenshot or material. And
      if material uploads end under their own claim, no claim has two rows, and a caller told of a new material
      is told of its own. */
  lemma ExactlyOnce(run: seq<Event>)
    requires FairRun(EMPTY, run)
    ensures var s := Run(EMPTY, run);
            && (forall i :: 0 <= i < |s.created| ==>
                  s.created[i].id in s.claims && RowFits(s.created[i], s.claims[s.created[i].id]))
            && (forall i, j :: 0 <= i < j < |s.created| && s.claims[s.created[i].id].scope.path.ArtifactUpload? ==>
                  s.created[i].id != s.created[j].id)
            && (forall scope :: scope in s.records ==>
                  && s.records[scope].resource.Some? && s.records[scope].resource.value in s.claims
                  && s.claims[s.records[scope].resource.value]
                     == FirstClaim(scope, s.records[scope].hash, s.records[scope].createdAt))
            && (forall a, b :: a in s.answers && b in s.answers && a.resource == b.resource ==> a.artifact == b.artifact)
            && (forall a :: a in s.answers ==> a.artifact in s.created && a.artifact.id == a.resource)
            && (forall t, u :: t in s.told && u in s.told && t.resource == u.resource ==> t == u)
            && (Allowed(EMPTY, run) ==>
                  && (forall i, j :: 0 <= i < j < |s.created| ==> s.created[i].id != s.created[j].id)
                  && (forall t :: t in s.told && t.status == 201 ==>
                        t.artifact == t.resource && Made(s.created, t.resource)))
  {
    EmptyAnswered();
    RunAnswered(EMPTY, run);
    var s := Run(EMPTY, run);
    if Allowed(EMPTY, run) {
      EmptyInv();
      RunKeeps(EMPTY, run);
    }
    forall a, b | a in s.answers && b in s.answers && a.resource == b.resource ensures a.artifact == b.artifact {
      assert a.artifact in s.created && b.artifact in s.created;
    }
    hide Kept, BoundOk, ShotsOk, TellOk, Made, RowFits, Artifact.Valid, Run, Allowed, FairRun;
  }

  /** In any run at all a replay of a completed screenshot upload answers the one artifact of its claim. */
  lemma ReplayNeverFails(run: seq<Event>, scope: Scope)
    requires FairRun(EMPTY, run)
    requires var s := Run(EMPTY, run);
             scope in s.records && s.records[scope].status == Completed && scope.path.ArtifactUpload?
    ensures var s := Run(EMPTY, run);
            var answer := ReplayAnswer(scope, s.records[scope]);
            && answer.Some? && answer.value.artifact in s.created
            && s.records[scope].resource == Some(answer.value.artifact.id)
  {
    EmptyAnswered();
    RunAnswered(EMPTY, run);
    var s := Run(EMPTY, run);
    assert ShotOk(s.created, scope, s.records[scope]);
    ShotReplays(s.records, s.claims, s.created, scope);
  }

  /** A screenshot attempt whose record was expired and recreated writes nothing at all. */
  lemma StaleScreenshotWritesNothing(s: State, t: Id, now: Time)
    requires t in s.attempts && s.attempts[t].scope in s.records
    requires s.records[s.attempts[t].scope].resource != Some(s.attempts[t].resource)
    ensures var s' := FinishScreenshot(s, t, now);
            s' == s.(attempts := s'.attempts, answers := s'.answers, told := s'.told)
  {
    hide Artifact.Valid, Taken, NewRow, EncodeArtifact, Execute, Replayed;
    var a := s.attempts[t];
    if a.phase == Stored && a.scope.path.ArtifactUpload? {
      if s.records[a.scope].hash == a.upload {
        if s.records[a.scope].status == Completed {}
      }
    }
  }

  /** An insert under the record's own claim meets neither an existing ID nor an existing storage key. */
  lemma CurrentInsertIsFree(s: State, t: Id, row: Artifact)
    requires Kept(s) && MayInsert(s, t) && RowOf(row, s.attempts[t])
    ensures !Taken(s.artifacts, row)
  {
    MayInsertIsOpen(s, t);
    forall id | id in s.artifacts ensures s.artifacts[id].storageKey != row.storageKey {
      assert s.artifacts[id].storageKey.id == id;
    }
  }

  /** Expiring an unanswered upload always leaves its object reserved for deletion. */
  lemma AbandonedIsReserved(s: State, scope: Scope, taskId: Id, now: Time)
    requires Kept(s) && scope in s.records && Expired(s.records[scope], now) && s.records[scope].status == InProgress
    ensures var s' := ExpireRecord(s, scope, taskId, now);
            scope !in s'.records && KeyOf(scope, s.records[scope].resource.value) in s'.tasks
  {
    assert Abandoned(scope, s.records[scope]);
  }

  // --------------------------------------------------------------------- what goes to its end

  /** The image is available, its object stored, its caller answered, and its record replays the answer. */
  predicate Delivered(s: State, scope: Scope, row: Artifact, picture: Picture) {
    && Available(s, row.id) && s.artifacts[row.id] == row
    && row.storageKey in s.objects && s.objects[row.storageKey] == picture
    && Answer(scope, row.id, row) in s.answers
    && scope in s.records && ReplayAnswer(scope, s.records[scope]) == Some(Answer(scope, row.id, row))
  }

  lemma CompletedReplays(records: Records, scope: Scope, row: Artifact, finished: Time)
    requires scope in records && records[scope].status == InProgress && records[scope].resource == Some(row.id)
    requires row.Valid()
    ensures var records' := Execute(records, Complete(scope, 201, ArtifactBody(EncodeArtifact(row)), finished));
            scope in records' && ReplayAnswer(scope, records'[scope]) == Some(Answer(scope, row.id, row))
  {
    ArtifactReplay(row);
    hide Artifact.Valid, EncodeArtifact, DecodeArtifact;
  }

  /** The object of a current attempt is stored and no deletion of it is reserved. */
  lemma ObjectIsOwn(s: State, t: Id)
    requires Kept(s) && MayInsert(s, t)
    ensures var a := s.attempts[t]; var key := KeyOf(a.scope, a.resource);
            key in s.objects && s.objects[key] == a.upload.picture && key !in s.tasks
  {
    var key := KeyOf(s.attempts[t].scope, s.attempts[t].resource);
    MayInsertIsOpen(s, t);
    assert key in s.objects ==> ContentOk(s.claims, key, s.objects[key]);
    hide Kept;
  }

  lemma FinishInserts(s: State, t: Id, row: Artifact, finished: Time)
    requires MayInsert(s, t) && s.attempts[t].scope.path.ArtifactUpload?
    requires s.records[s.attempts[t].scope].hash == s.attempts[t].upload
    requires row == NewRow(s.attempts[t], RequestScreenshot, s.records[s.attempts[t].scope].createdAt) && row.Valid()
    requires !Taken(s.artifacts, row)
    ensures var a := s.attempts[t]; var s' := FinishScreenshot(s, t, finished);
            && s'.artifacts == s.artifacts[row.id := row] && s'.tasks == s.tasks && s'.objects == s.objects
            && s'.records == Execute(s.records, Complete(a.scope, 201, ArtifactBody(EncodeArtifact(row)), finished))
            && Answer(a.scope, row.id, row) in s'.answers
  {
    hide Artifact.Valid, EncodeArtifact, Taken, Execute, NewRow, Fits;
  }

  lemma FinishDelivers(s: State, t: Id, row: Artifact, finished: Time)
    requires Inv(s) && MayInsert(s, t) && s.attempts[t].scope.path.ArtifactUpload?
    requires row == NewRow(s.attempts[t], RequestScreenshot, s.records[s.attempts[t].scope].createdAt) && row.Valid()
    ensures Delivered(FinishScreenshot(s, t, finished), s.attempts[t].scope, row, s.attempts[t].upload.picture)
  {
    hide Kept, Tidy, Artifact.Valid, EncodeArtifact, Taken, Execute, ReplayAnswer, Fits, FinishScreenshot;
    MayInsertIsOpen(s, t);
    ObjectIsOwn(s, t);
    CurrentInsertIsFree(s, t, row);
    FinishInserts(s, t, row, finished);
    CompletedReplays(s.records, s.attempts[t].scope, row, finished);
  }

  /** The key is free, or its record is of the same request and its lease is over. */
  predicate Claimable(records: Records, scope: Scope, upload: Upload, now: Time) {
    scope in records ==>
      && records[scope].hash == upload && records[scope].status == InProgress
      && records[scope].lease.Some? && records[scope].lease.value <= now
  }

  /** The row that an upload which claims its key is to have: a takeover keeps the first claim's ID and time. */
  function RowToBe(records: Records, scope: Scope, upload: Upload, candidate: Id, now: Time): Artifact {
    var first := scope !in records || records[scope].resource.None?;
    NewRow(Attempt(Stored, scope, upload, if first then candidate else records[scope].resource.value), RequestScreenshot,
           if first then Micro(now) else records[scope].createdAt)
  }

  /** An upload that nothing disturbs ends with an available image and an answered caller, also one that takes an
      abandoned claim over. */
  lemma UploadCompletes(s: State, t: Id, scope: Scope, upload: Upload, r: Id, begun: Time, finished: Time)
    requires Inv(s) && scope.path.ArtifactUpload? && Claimable(s.records, scope, upload, begun) && r !in s.used
    requires RowToBe(s.records, scope, upload, r, begun).Valid()
    ensures Delivered(FinishScreenshot(PutSucceeds(BeginUpload(s, t, scope, upload, r, begun), t), t, finished), scope,
                      RowToBe(s.records, scope, upload, r, begun), upload.picture)
  {
    UploadReachesStorage(s, t, scope, upload, r, begun);
    hide Inv, BeginUpload, PutSucceeds, FinishScreenshot, NewRow, Artifact.Valid, Delivered, RowToBe, Claimable;
    FinishDelivers(PutSucceeds(BeginUpload(s, t, scope, upload, r, begun), t), t,
                   RowToBe(s.records, scope, upload, r, begun), finished);
  }

  lemma ClaimAcquires(records: Records, scope: Scope, upload: Upload, r: Id, now: Time)
    requires ValidTable(records) && Claimable(records, scope, upload, now)
    requires scope in records ==> records[scope].resource.Some?
    ensures var (records', claim) := Acquire(records, scope, upload, Some(r), now);
            var row := RowToBe(records, scope, upload, r, now);
            && claim.Claimed? && claim.decision != Replay && claim.record == records'[scope]
            && scope in records' && records'[scope].status == InProgress && records'[scope].hash == upload
            && records'[scope].resource == Some(row.id) && records'[scope].createdAt == row.createdAt
            && records'[scope].lease == Some(Micro(now + LEASE)) && records' - {scope} == records - {scope}
  {
    AcquireOutcome(records, scope, upload, Some(r), now);
    hide Acquire, ValidTable;
  }

  lemma ClaimStarts(s: State, t: Id, scope: Scope, upload: Upload, r: Id, begun: Time)
    requires RecordsOk(s.records, s.claims) && Claimable(s.records, scope, upload, begun)
    ensures var s' := BeginUpload(s, t, scope, upload, r, begun); var row := RowToBe(s.records, scope, upload, r, begun);
            && t in s'.attempts && s'.attempts[t] == Attempt(Putting, scope, upload, row.id)
            && row == NewRow(Attempt(Stored, scope, upload, row.id), RequestScreenshot, row.createdAt)
            && scope in s'.records && s'.records[scope].status == InProgress && s'.records[scope].hash == upload
            && s'.records[scope].resource == Some(row.id) && s'.records[scope].createdAt == row.createdAt
            && s'.records[scope].lease == Some(Micro(begun + LEASE)) && s'.created == s.created
            && s'.artifacts == s.artifacts && s'.records - {scope} == s.records - {scope}
  {
    assert scope in s.records ==> s.records[scope].resource.Some?;
    hide Acquire, RecordsOk, Claimable;
    ClaimAcquires(s.records, scope, upload, r, begun);
  }

  lemma UploadReachesStorage(s: State, t: Id, scope: Scope, upload: Upload, r: Id, begun: Time)
    requires Inv(s) && scope.path.ArtifactUpload? && Claimable(s.records, scope, upload, begun) && r !in s.used
    ensures var s' := PutSucceeds(BeginUpload(s, t, scope, upload, r, begun), t);
            var row := RowToBe(s.records, scope, upload, r, begun);
            && Inv(s') && MayInsert(s', t) && s'.attempts[t] == Attempt(Stored, scope, upload, row.id)
            && row == NewRow(s'.attempts[t], RequestScreenshot, s'.records[scope].createdAt)
  {
    assert RecordsOk(s.records, s.claims);
    hide Kept, Tidy, BeginUpload, RecordsOk, RowToBe, NewRow, Claimable;
    BeginUploadKeeps(s, t, scope, upload, r, begun);
    ClaimStarts(s, t, scope, upload, r, begun);
    var s1 := BeginUpload(s, t, scope, upload, r, begun);
    PutSucceedsKeeps(s1, t);
    OwnClaim(PutSucceeds(s1, t), t);
  }

  /** A PUT whose answer was lost may be applied later: then storage holds the object of an upload that has no row,
      nobody works on, and whose key is still claimed. */
  lemma LostAnswerLeavesObject(s: State, t: Id, scope: Scope, upload: Upload, r: Id, begun: Time)
    requires Inv(s) && scope !in s.records && r !in s.used && IsUploadPath(scope.path)
    ensures var s' := LatePut(PutFails(BeginUpload(s, t, scope, upload, r, begun), t, false, true, false),
                              KeyOf(scope, r), upload.picture);
            && KeyOf(scope, r) in s'.objects && s'.objects[KeyOf(scope, r)] == upload.picture
            && r !in s'.artifacts && t !in s'.attempts
            && scope in s'.records && s'.records[scope].status == InProgress && s'.records[scope].resource == Some(r)
  {
    assert r !in s.artifacts by {
      assert s.claims.Keys <= s.used && forall id :: id in s.artifacts ==> id in s.claims;
    }
    hide Kept, Tidy;
    FreshClaim(s, t, scope, upload, r, begun);
    hide BeginUpload;
  }

  lemma FreshClaim(s: State, t: Id, scope: Scope, upload: Upload, r: Id, begun: Time)
    requires scope !in s.records
    ensures var s' := BeginUpload(s, t, scope, upload, r, begun);
            && t in s'.attempts && s'.attempts[t] == Attempt(Putting, scope, upload, r) && s'.artifacts == s.artifacts
            && scope in s'.records && s'.records[scope].status == InProgress && s'.records[scope].resource == Some(r)
  {
  }

  lemma OwnClaim(s: State, t: Id)
    requires Kept(s) && t in s.attempts && s.attempts[t].scope.path.ArtifactUpload?
    ensures s.attempts[t].resource in s.claims && Fits(s.claims[s.attempts[t].resource])
  {
    assert AttemptOk(s.attempts[t], s.records, s.claims, s.objects);
  }

  /** A material upload whose batch cannot be used answers its record with the refusal, and only that. */
  lemma RefusalIsAnswered(s: State, t: Id, refusal: Refusal, now: Time)
    requires t in s.attempts && s.attempts[t].phase == Putting && s.attempts[t].scope.path.MaterialUpload?
    requires s.attempts[t].scope in s.records && s.records[s.attempts[t].scope].status == InProgress
    ensures var s' := RefuseMaterial(s, t, refusal, now); var scope := s.attempts[t].scope;
            && s' == s.(records := s'.records, attempts := s.attempts - {t})
            && s'.records - {scope} == s.records - {scope} && scope in s'.records
            && s'.records[scope].status == Completed && s'.records[scope].hash == s.records[scope].hash
            && s'.records[scope].body == Some(ErrorBody(refusal))
            && s'.records[scope].responseStatus
               == Some(match refusal case Forbidden => 403 case NotFound => 404 case _ => 409)
  {
  }

  lemma PromoteMoves(s: State, id: Id, now: Time)
    requires id in s.materials && id in s.artifacts && s.artifacts[id].createdAt <= Micro(now)
    ensures var s' := Promote(s, id, now);
            && id in s'.pinned && s'.materials == s.materials - {id} && s'.artifacts[id].purpose == GuideStep
            && s'.artifacts - {id} == s.artifacts - {id} && s'.tasks == s.tasks
  {
  }

  /** A material that a saved guide uses becomes a guide step that is available in every later state. */
  lemma PromotedStays(s: State, id: Id, now: Time, run: seq<Event>)
    requires Inv(s) && id in s.materials && id in s.artifacts && s.artifacts[id].createdAt <= Micro(now)
    requires Allowed(Promote(s, id, now), run)
    ensures var s1, s' := Promote(s, id, now), Run(Promote(s, id, now), run);
            && s1.materials == s.materials - {id} && s1.artifacts[id].purpose == GuideStep
            && s1.artifacts - {id} == s.artifacts - {id} && s1.tasks == s.tasks
            && Available(s', id) && s'.artifacts[id].storageKey in s'.objects
  {
    hide Kept, Tidy, Promote, Allowed, Run, Available;
    PromoteKeeps(s, id, now);
    PromoteMoves(s, id, now);
    PinnedForever(Promote(s, id, now), run, id);
  }

  /** A dropped material is unavailable at once, and a worker can take its task up. */
  lemma DroppedIsReserved(s: State, id: Id, taskId: Id, now: Time)
    requires Inv(s) && id in s.materials && taskId !in s.used
    ensures id in s.artifacts
    ensures var s' := DropMaterial(s, id, taskId, now); var key := s.artifacts[id].storageKey;
            && s'.materials == s.materials - {id} && s'.artifacts == s.artifacts && key !in s.tasks
            && s'.tasks == s.tasks[key := NewTask(taskId, Some(id), now)]
            && Due(s', key, now) && !Available(s', id)
  {
    assert PinsOk(s.pinned, s.materials, s.artifacts, s.tasks, s.claims);
    hide Inv, PinsOk;
  }

  /** Cleanup makes a stale image unavailable at once, by a task that names it. */
  lemma StaleIsReserved(s: State, id: Id, taskId: Id, now: Time)
    requires Stale(s, id, now)
    ensures var s' := ReserveStale(s, id, taskId, now); var key := s.artifacts[id].storageKey;
            && !Available(s', id) && s'.tasks == s.tasks[key := NewTask(taskId, Some(id), now)]
            && Due(s', key, now)
  {
  }

  lemma DeletionErases(s: State, worker: Id, key: Key, now: Time)
    requires worker !in s.deletions && Due(s, key, now)
    ensures var task := s.tasks[key].(running := true, attempt := s.tasks[key].attempt + 1);
            EraseSucceeds(MarkRunning(s, worker, key, now), worker)
            == s.(objects := s.objects - {key}, tasks := s.tasks[key := task],
                  deletions := s.deletions[worker := Deletion(key, task, Erased)])
  {
    var task := s.tasks[key].(running := true, attempt := s.tasks[key].attempt + 1);
    assert s.deletions[worker := Deletion(key, task, Marked)][worker := Deletion(key, task, Erased)]
        == s.deletions[worker := Deletion(key, task, Erased)];
  }

  /** A deletion that nothing disturbs removes object, row and task of its key, and nothing else; unless the
      image was taken while it was reserved: then only the object goes. */
  lemma DeletionRemovesItsKey(s: State, worker: Id, key: Key, now: Time)
    requires Inv(s) && worker !in s.deletions && Due(s, key, now)
    ensures var s' := EraseSucceeds(MarkRunning(s, worker, key, now), worker);
            if key.id in s.strayed then FinishDeletion(s', worker) == s' && s'.objects == s.objects - {key}
            else FinishDeletion(s', worker)
                 == s.(objects := s.objects - {key}, tasks := s.tasks - {key}, artifacts := s.artifacts - {key.id})
  {
    assert TaskIdsOk(s.tasks, s.deletions);
    hide Kept, Tidy, MarkRunning, EraseSucceeds, TaskIdsOk;
    TaskUnpinned(s, key);
    DeletionErases(s, worker, key, now);
    var task := s.tasks[key].(running := true, attempt := s.tasks[key].attempt + 1);
    DeletionEnds(s, worker, key, task);
  }

  lemma DeletionEnds(s: State, worker: Id, key: Key, task: Task)
    requires TaskIdsOk(s.tasks, s.deletions) && worker !in s.deletions && key in s.tasks && task.id == s.tasks[key].id
    requires key.id !in s.pinned && key.id !in s.materials
    requires if task.artifact.Some? then task.artifact.value == key.id else key.id !in s.artifacts && key.id !in s.strayed
    ensures var s' := s.(objects := s.objects - {key}, tasks := s.tasks[key := task],
                         deletions := s.deletions[worker := Deletion(key, task, Erased)]);
            FinishDeletion(s', worker)
            == if key.id in s.strayed then s'
               else s.(objects := s.objects - {key}, tasks := s.tasks - {key}, artifacts := s.artifacts - {key.id})
  {
    DeleteOwnTask(s.tasks, s.deletions, key, task);
    hide TaskIdsOk, DeleteTask;
    DropFresh(s.deletions, worker, Deletion(key, task, Erased));
    assert task.artifact.None? ==> s.artifacts - {key.id} == s.artifacts;
  }

  lemma TaskUnpinned(s: State, key: Key)
    requires Inv(s) && key in s.tasks
    ensures key.id !in s.pinned && key.id !in s.materials
    ensures if s.tasks[key].artifact.Some? then s.tasks[key].artifact.value == key.id
            else key.id !in s.artifacts && key.id !in s.strayed
  {
    assert TaskFits(key, s.tasks[key], s.claims, s.used);
    assert key.id in s.artifacts ==> s.artifacts[key.id].storageKey == key;
  }

  lemma DropFresh(deletions: map<Id, Deletion>, worker: Id, d: Deletion)
    requires worker !in deletions
    ensures deletions[worker := d] - {worker} == deletions
  {
  }

  lemma DeleteOwnTask(tasks: map<Key, Task>, deletions: map<Id, Deletion>, key: Key, task: Task)
    requires TaskIdsOk(tasks, deletions) && key in tasks && task.id == tasks[key].id
    ensures DeleteTask(tasks[key := task], task.id) == tasks - {key}
  {
  }

  // ---------------------------------------------------------------------------- references

  /** References stay, and none strays. */
  predicate Refers(s: State, s': State) { s.pinned <= s'.pinned && s'.strayed == s.strayed }

  lemma UploadRefers(s: State, e: Event)
    requires e.EPutSucceeds? || e.EPutFails? || e.ELatePut? || e.ERelease? || e.ERefuseMaterial? || e.ECrashUpload?
    ensures Refers(s, Next(s, e))
  {
    hide Execute;
  }

  lemma PinRefers(s: State, tx: Id, id: Id, now: Time)
    ensures Refers(s, Pin(s, id)) && Refers(s, ReadForRun(s, tx, id)) && Refers(s, Promote(s, id, now))
  {
  }

  lemma DropRefers(s: State, id: Id, taskId: Id, now: Time)
    ensures Refers(s, DropMaterial(s, id, taskId, now))
  {
    if id in s.materials && id in s.artifacts {}
  }

  lemma StaleRefers(s: State, id: Id, taskId: Id, now: Time)
    ensures Refers(s, ReserveStale(s, id, taskId, now))
  {
    if Stale(s, id, now) {}
  }

  lemma ExpireRefers(s: State, scope: Scope, taskId: Id, now: Time)
    ensures Refers(s, ExpireRecord(s, scope, taskId, now))
  {
  }

  lemma EraseRefers(s: State, w: Id, key: Key, applied: bool, late: bool, now: Time)
    ensures Refers(s, MarkRunning(s, w, key, now)) && Refers(s, EraseSucceeds(s, w))
    ensures Refers(s, EraseFails(s, w, applied, late)) && Refers(s, LateDelete(s, key))
  {
    if w !in s.deletions && Due(s, key, now) {}
  }

  lemma DeletionRefers(s: State, w: Id, now: Time)
    ensures Refers(s, Retry(s, w, now)) && Refers(s, FinishDeletion(s, w))
    ensures Refers(s, RecoverTasks(s)) && Refers(s, CrashDeletion(s, w))
  {
    if w in s.deletions && DeleteRefused(s, w) {}
  }

  lemma ReferenceStepRefers(s: State, e: Event)
    requires !e.ETakeForRun? && (e.OfReference() || e.OfCleanup())
    ensures Refers(s, Next(s, e))
  {
    hide Refers, Pin, ReadForRun, Promote, DropMaterial, ReserveStale, ExpireRecord;
    match e
    case EPin(id) => PinRefers(s, "", id, 0);
    case EReadForRun(tx, id) => PinRefers(s, tx, id, 0);
    case EPromote(id, now) => PinRefers(s, "", id, now);
    case EDropMaterial(id, taskId, now) => DropRefers(s, id, taskId, now);
    case EReserveStale(id, taskId, now) => StaleRefers(s, id, taskId, now);
    case EExpireRecord(scope, taskId, now) => ExpireRefers(s, scope, taskId, now);
  }

  lemma DeletionStepRefers(s: State, e: Event)
    requires e.OfDeletion()
    ensures Refers(s, Next(s, e))
  {
    hide Refers, MarkRunning, EraseSucceeds, EraseFails, LateDelete, Retry, FinishDeletion, RecoverTasks, CrashDeletion;
    match e
    case EMarkRunning(w, key, now) => EraseRefers(s, w, key, false, false, now);
    case EEraseSucceeds(w) => EraseRefers(s, w, Key("", ""), false, false, 0);
    case EEraseFails(w, applied, late) => EraseRefers(s, w, Key("", ""), applied, late, 0);
    case ELateDelete(key) => EraseRefers(s, "", key, false, false, 0);
    case ERetry(w, now) => DeletionRefers(s, w, now);
    case EFinishDeletion(w) => DeletionRefers(s, w, 0);
    case ERecoverTasks => DeletionRefers(s, "", 0);
    case ECrashDeletion(w) => DeletionRefers(s, w, 0);
  }

  lemma FinishRefers(s: State, e: Event)
    requires e.EBeginUpload? || e.EFinishScreenshot? || e.EFinishMaterial?
    ensures Refers(s, Next(s, e))
  {
    hide BeginUpload, FinishScreenshot, FinishMaterial;
  }

  lemma StepRefers(s: State, e: Event)
    requires !e.ETakeForRun?
    ensures Refers(s, Next(s, e))
  {
    hide Next, Refers;
    if e.EBeginUpload? || e.EFinishScreenshot? || e.EFinishMaterial? {
      FinishRefers(s, e);
    } else if e.OfUpload() {
      UploadRefers(s, e);
    } else if e.OfReference() || e.OfCleanup() {
      ReferenceStepRefers(s, e);
    } else {
      DeletionStepRefers(s, e);
    }
  }

  /** The transaction takes an image that was reserved after it had read it. */
  predicate Strays(s: State, e: Event, id: Id) {
    && e.ETakeForRun? && e.tx in s.readers && s.readers[e.tx] == id
    && id in s.artifacts && s.artifacts[id].storageKey in s.tasks
  }

  lemma StepStrays(s: State, e: Event, id: Id)
    ensures id in Next(s, e).strayed <==> id in s.strayed || Strays(s, e, id)
    ensures s.pinned <= Next(s, e).pinned
  {
    if e.ETakeForRun? {
      if e.tx in s.readers {}
    } else {
      hide Next;
      StepRefers(s, e);
    }
  }

  lemma {:induction false} RunPins(s: State, run: seq<Event>)
    ensures s.pinned <= Run(s, run).pinned
    ensures s.strayed <= Run(s, run).strayed
    decreases |run|
  {
    hide Next;
    if run != [] {
      StepStrays(s, run[0], "");
      forall id | id in s.strayed ensures id in Next(s, run[0]).strayed {
        StepStrays(s, run[0], id);
      }
      RunPins(Next(s, run[0]), run[1..]);
    }
  }

  /** Some step of the run takes the image while it is reserved. */
  ghost predicate StraysIn(s: State, run: seq<Event>, id: Id) {
    exists i :: 0 <= i < |run| && Strays(Run(s, run[..i]), run[i], id)
  }

  lemma {:induction false} StrayedExactly(s: State, run: seq<Event>, id: Id)
    ensures id in Run(s, run).strayed <==> id in s.strayed || StraysIn(s, run, id)
    decreases |run|
  {
    hide Next, Strays;
    if run != [] {
      StepStrays(s, run[0], id);
      StrayedExactly(Next(s, run[0]), run[1..], id);
      FirstOrLater(s, run, id);
    }
  }

  lemma FirstOrLater(s: State, run: seq<Event>, id: Id)
    requires run != []
    ensures StraysIn(s, run, id) <==> Strays(s, run[0], id) || StraysIn(Next(s, run[0]), run[1..], id)
  {
    hide Next, Strays;
    var s1, rest := Next(s, run[0]), run[1..];
    assert run[..0] == [];
    forall i | 0 <= i < |rest| ensures Run(s, run[..i + 1]) == Run(s1, rest[..i]) && run[i + 1] == rest[i] {
      assert run[..i + 1][1..] == rest[..i] && run[..i + 1][0] == run[0];
    }
    if Strays(s, run[0], id) {
      assert Strays(Run(s, run[..0]), run[0], id);
    }
    if i :| 0 <= i < |rest| && Strays(Run(s1, rest[..i]), rest[i], id) {
      assert Strays(Run(s, run[..i + 1]), run[i + 1], id);
    }
    if i :| 0 <= i < |run| && Strays(Run(s, run[..i]), run[i], id) {
      if i > 0 {
        assert Strays(Run(s1, rest[..i - 1]), rest[i - 1], id);
      }
    }
  }

  /** The unguarded DELETE of a finished task meets a reference, and is refused by the foreign key, exactly if a
      request from a guide run took the image while it was reserved; it never meets another kind. */
  lemma DeletionMeetsNoReference(run: seq<Event>, worker: Id)
    requires Allowed(EMPTY, run) && worker in Run(EMPTY, run).deletions
    ensures var s := Run(EMPTY, run); var task := s.deletions[worker].task;
            task.artifact.Some? ==>
              && task.artifact.value !in s.pinned && task.artifact.value !in s.materials
              && (DeleteRefused(s, worker) <==> StraysIn(EMPTY, run, task.artifact.value))
  {
    EmptyInv();
    RunKeeps(EMPTY, run);
    var s := Run(EMPTY, run);
    var task := s.deletions[worker].task;
    if task.artifact.Some? {
      CopyUnpinned(s, worker);
      hide Inv, Allowed, Run;
      StrayedExactly(EMPTY, run, task.artifact.value);
    }
  }

  lemma CopyUnpinned(s: State, worker: Id)
    requires Inv(s) && worker in s.deletions && s.deletions[worker].task.artifact.Some?
    ensures s.deletions[worker].task.artifact.value !in s.pinned
    ensures s.deletions[worker].task.artifact.value !in s.materials
  {
    var id := s.deletions[worker].task.artifact.value;
    assert TaskFits(s.deletions[worker].key, s.deletions[worker].task, s.claims, s.used);
    if id in s.artifacts {
      assert s.artifacts[id].storageKey == s.deletions[worker].key;
    }
  }

  /** An image that a reference took unreserved stays: row, object, and no deletion reserved, ever after. */
  lemma PinnedForever(s: State, run: seq<Event>, id: Id)
    requires Inv(s) && id in s.pinned && Allowed(s, run)
    ensures Available(Run(s, run), id) && Run(s, run).artifacts[id].storageKey in Run(s, run).objects
  {
    RunPins(s, run);
    RunKeeps(s, run);
  }

  /** The exact condition, for every image that a request or a guide refers to and for every later state: it is
      available if no request from a guide run took it while it was reserved, and if one did it is not, though
      its row stays. */
  lemma ReferencedForever(before: seq<Event>, after: seq<Event>, id: Id)
    requires Allowed(EMPTY, before) && Allowed(Run(EMPTY, before), after)
    requires id in Run(EMPTY, before).pinned || id in Run(EMPTY, before).strayed
    ensures var s := Run(Run(EMPTY, before), after);
            && id in s.artifacts
            && (Available(s, id) <==> !StraysIn(EMPTY, before, id))
            && (Available(s, id) ==> s.artifacts[id].storageKey in s.objects)
  {
    EmptyInv();
    RunKeeps(EMPTY, before);
    RunKeeps(Run(EMPTY, before), after);
    RunPins(Run(EMPTY, before), after);
    StrayedExactly(EMPTY, before, id);
    var s := Run(EMPTY, before);
    assert id in s.pinned ==> id !in s.strayed;
    hide Allowed, StraysIn, Run;
  }
}
