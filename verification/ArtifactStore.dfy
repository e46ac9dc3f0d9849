/** The life of an uploaded image: a claimed key, an object in storage, a row, a deletion task.

    The state holds the tables, the storage bucket and the local state of every upload and deletion
    worker. Each function below is one transaction, or one storage call made outside any transaction,
    so a run interleaves them freely. A crash drops a local state at any point. Storage may apply a PUT
    or a DELETE whose answer was lost, then or at any later time. */
module ArtifactStore {
  import opened Common
  import opened Entities
  import opened Idempotency

  /** The request an upload key stands for. `fits` tells whether a guide material's sequence and capture
      time lie in the bounds of its batch, which never change once the batch exists. */
  datatype Upload = Upload(capturedAt: Time, picture: Picture, fits: bool)

  /** The errors that a material upload stores as its response. */
  datatype Refusal = Forbidden | NotFound | InvalidState | MaterialConflict
  {
    function ResponseStatus(): int {
      match this
      case Forbidden => 403
      case NotFound => 404
      case InvalidState => 409
      case MaterialConflict => 409
    }
  }

  datatype Body = ArtifactBody(json: ArtifactJson) | MaterialBody(artifact: Id) | ErrorBody(refusal: Refusal)

  datatype Task = Task(
    id: Id, artifact: Option<Id>, running: bool, attempt: nat, nextAttemptAt: Time, createdAt: Time)

  datatype Phase = Putting | Stored | Releasing

  /** An upload under way: what it asked for and the artifact ID its claim was given. */
  datatype Attempt = Attempt(phase: Phase, scope: Scope, upload: Upload, resource: Id)

  datatype Erasure = Marked | Erased | Failed

  /** A deletion worker's copy of the task it marked, and how far it got. */
  datatype Deletion = Deletion(key: Key, task: Task, erasure: Erasure)

  /** History: the first claim that was given an artifact ID. */
  datatype FirstClaim = FirstClaim(scope: Scope, upload: Upload, createdAt: Time)

  /** History: an artifact answered to a caller whose key stood for `resource`. */
  datatype Answer = Answer(scope: Scope, resource: Id, artifact: Artifact)

  /** History: a success (200 or 201) told to the caller of a material upload whose key stood for `resource`. */
  datatype Told = Told(scope: Scope, resource: Id, status: int, artifact: Id)

  datatype State = State(
    records: Table<Upload, Body>,
    artifacts: map<Id, Artifact>,
    tasks: map<Key, Task>,
    pinned: set<Id>,             // artifacts of support requests and saved guide steps
    strayed: set<Id>,            // artifacts that a request from a guide run took while they were reserved
    readers: map<Id, Id>,        // what the transactions of such requests have read
    materials: set<Id>,          // artifacts of guide materials
    objects: map<Key, Picture>,
    latePuts: set<(Key, Picture)>,
    lateDeletes: set<Key>,
    attempts: map<Id, Attempt>,
    deletions: map<Id, Deletion>,
    used: set<Id>,               // every generated ID so far
    claims: map<Id, FirstClaim>,
    created: seq<Artifact>,      // every artifact row ever inserted
    answers: set<Answer>,
    told: set<Told>)

  const EMPTY: State :=
    State(map[], map[], map[], {}, {}, map[], {}, map[], {}, {}, map[], map[], {}, map[], [], {}, {})

  predicate IsUploadPath(p: Path) { p.ArtifactUpload? || p.MaterialUpload? }

  function KeyOf(scope: Scope, resource: Id): Key { Key(scope.actor, resource) }

  // ------------------------------------------------------------------------------------ uploads

  /** First transaction of an upload: claim the key. */
  function BeginUpload(s: State, attempt: Id, scope: Scope, upload: Upload, candidate: Id, now: Time): (r: State)
    ensures r.pinned == s.pinned && r.strayed == s.strayed
  {
    var (records, claim) := Acquire(s.records, scope, upload, Some(candidate), now);
    Begun(s.(used := s.used + {candidate}), attempt, scope, upload, records, claim)
  }

  /** What follows a claim: nothing, a replay, or an attempt for the record's artifact ID. */
  function Begun(
    s: State, attempt: Id, scope: Scope, upload: Upload, records: Table<Upload, Body>, claim: Claim<Upload, Body>)
    : (r: State)
    ensures r.pinned == s.pinned && r.strayed == s.strayed
  {
    if claim.Refused? then s
    else if claim.decision == Replay then Replayed(s, scope, claim.record)
    else if claim.record.resource.None? then s.(records := records)
    else
      var resource := claim.record.resource.value;
      s.(records := records,
         attempts := s.attempts[attempt := Attempt(Putting, scope, upload, resource)],
         claims := if claim.decision == Start
                   then s.claims[resource := FirstClaim(scope, upload, claim.record.createdAt)] else s.claims)
  }

  /** A completed record answers its stored response; only a 201 that decodes gives a screenshot. */
  function Replayed(s: State, scope: Scope, record: Record<Upload, Body>): (r: State)
    ensures r == s.(answers := r.answers, told := r.told) && s.answers <= r.answers && s.told <= r.told
  {
    var answer := ReplayAnswer(scope, record);
    s.(answers := if answer.Some? then s.answers + {answer.value} else s.answers,
       told := s.told + MaterialAnswer(scope, record))
  }

  function MaterialAnswer(scope: Scope, record: Record<Upload, Body>): set<Told> {
    if record.resource.Some? && record.body.Some? && record.body.value.MaterialBody?
       && record.responseStatus in {Some(200), Some(201)}
    then {Told(scope, record.resource.value, record.responseStatus.value, record.body.value.artifact)} else {}
  }

  function ReplayAnswer(scope: Scope, record: Record<Upload, Body>): Option<Answer> {
    if record.responseStatus != Some(201) || record.body.None? || !record.body.value.ArtifactBody? then None else
    var artifact := DecodeArtifact(record.body.value.json);
    if artifact.None? || record.resource.None? then None
    else Some(Answer(scope, record.resource.value, artifact.value))
  }

  function PutSucceeds(s: State, attempt: Id): State {
    if attempt !in s.attempts || s.attempts[attempt].phase != Putting then s else
    var a := s.attempts[attempt];
    s.(objects := s.objects[KeyOf(a.scope, a.resource) := a.upload.picture],
       attempts := s.attempts[attempt := a.(phase := Stored)])
  }

  /** A PUT that reports an error. `applied`: the object was stored all the same. `late`: it may still be.
      A definite failure goes on to release the lease, an unknown outcome keeps it. */
  function PutFails(s: State, attempt: Id, applied: bool, late: bool, definite: bool): State {
    if attempt !in s.attempts || s.attempts[attempt].phase != Putting then s else
    var a := s.attempts[attempt];
    var key := KeyOf(a.scope, a.resource);
    s.(objects := if applied then s.objects[key := a.upload.picture] else s.objects,
       latePuts := if late then s.latePuts + {(key, a.upload.picture)} else s.latePuts,
       attempts := if definite then s.attempts[attempt := a.(phase := Releasing)] else s.attempts - {attempt})
  }

  function LatePut(s: State, key: Key, picture: Picture): State {
    if (key, picture) in s.latePuts then s.(objects := s.objects[key := picture]) else s
  }

  /** The lease is released whoever holds it by now. */
  function Release(s: State, attempt: Id, now: Time): State {
    if attempt !in s.attempts || s.attempts[attempt].phase != Releasing then s
    else s.(records := Execute(s.records, ReleaseLease(s.attempts[attempt].scope, now)),
            attempts := s.attempts - {attempt})
  }

  /** A material upload whose batch or owner cannot be read stores that error before any PUT. */
  function RefuseMaterial(s: State, attempt: Id, refusal: Refusal, now: Time): State {
    if attempt !in s.attempts || s.attempts[attempt].phase != Putting
       || !s.attempts[attempt].scope.path.MaterialUpload? then s
    else s.(records := Execute(s.records, Complete(s.attempts[attempt].scope, refusal.ResponseStatus(),
                                                   ErrorBody(refusal), now)),
            attempts := s.attempts - {attempt})
  }

  function CrashUpload(s: State, attempt: Id): State {
    s.(attempts := s.attempts - {attempt})
  }

  function NewRow(a: Attempt, purpose: Purpose, createdAt: Time): Artifact {
    Artifact(a.resource, a.scope.actor, purpose, "image/jpeg", KeyOf(a.scope, a.resource),
             a.upload.picture.sha256, |a.upload.picture.bytes|, a.upload.picture.width, a.upload.picture.height,
             Micro(a.upload.capturedAt), createdAt, createdAt, 1)
  }

  /** Inserting the row would break the primary key or the unique storage key. (Its other checks are those
      of `Artifact.Valid`.) */
  predicate Taken(artifacts: map<Id, Artifact>, row: Artifact) {
    row.id in artifacts || exists id :: id in artifacts && artifacts[id].storageKey == row.storageKey
  }

  /** Last transaction of a screenshot upload: row and completed record together, or a replay of the
      answer another attempt stored, or an error that changes nothing. */
  function FinishScreenshot(s: State, attempt: Id, now: Time): (r: State)
    ensures r.pinned == s.pinned && r.strayed == s.strayed
  {
    if attempt !in s.attempts || s.attempts[attempt].phase != Stored
       || !s.attempts[attempt].scope.path.ArtifactUpload? then s else
    var a := s.attempts[attempt];
    var s := s.(attempts := s.attempts - {attempt});
    if a.scope !in s.records || s.records[a.scope].hash != a.upload then s
    else if s.records[a.scope].status == Completed then Replayed(s, a.scope, s.records[a.scope])
    else if s.records[a.scope].resource != Some(a.resource) then s
    else
      var row := NewRow(a, RequestScreenshot, s.records[a.scope].createdAt);
      if !row.Valid() || Taken(s.artifacts, row) then s
      else s.(artifacts := s.artifacts[row.id := row],
              records := Execute(s.records, Complete(a.scope, 201, ArtifactBody(EncodeArtifact(row)), now)),
              created := s.created + [row],
              answers := s.answers + {Answer(a.scope, row.id, row)})
  }

  /** What the checks under the session and batch locks decide for a stored material. */
  datatype MaterialOutcome = Register | SameCapture(artifact: Id) | Reject(refusal: Refusal)

  function Reserve(s: State, key: Key, task: Task): (r: State)
    ensures r == s.(tasks := r.tasks) && key in r.tasks
  {
    if key in s.tasks then s else s.(tasks := s.tasks[key := task])
  }

  function NewTask(id: Id, artifact: Option<Id>, now: Time): Task {
    Task(id, artifact, false, 0, Micro(now), Micro(now))
  }

  /** The transaction gets past the record checks. */
  predicate MaterialProceeds(s: State, attempt: Id) {
    && attempt in s.attempts && s.attempts[attempt].phase == Stored
    && s.attempts[attempt].scope.path.MaterialUpload?
    && s.attempts[attempt].scope in s.records
    && s.records[s.attempts[attempt].scope].hash == s.attempts[attempt].upload
    && s.records[s.attempts[attempt].scope].status == InProgress
  }

  /** Another attempt has answered the record; the stored answer is replayed. */
  predicate MaterialReplays(s: State, attempt: Id) {
    && attempt in s.attempts && s.attempts[attempt].phase == Stored
    && s.attempts[attempt].scope.path.MaterialUpload?
    && s.attempts[attempt].scope in s.records
    && s.records[s.attempts[attempt].scope].hash == s.attempts[attempt].upload
    && s.records[s.attempts[attempt].scope].status == Completed
  }

  /** What the caller is told when its attempt answers the record with this body. */
  function Tell(s: State, scope: Scope, status: int, artifact: Id): set<Told>
    requires scope in s.records
  {
    if s.records[scope].resource.Some? then {Told(scope, s.records[scope].resource.value, status, artifact)} else {}
  }

  /** The attempt answers the record: with a refusal, an earlier upload of the same capture, or a new row; what
      it does not register it reserves for deletion. */
  function AnswerUpload(s: State, a: Attempt, outcome: MaterialOutcome, taskId: Id, now: Time): (r: State)
    requires a.scope in s.records
    ensures r.pinned == s.pinned && r.strayed == s.strayed
  {
    var reserved := Reserve(s, KeyOf(a.scope, a.resource), NewTask(taskId, None, now));
    if outcome.Reject? then
      reserved.(records := Execute(s.records, Complete(a.scope, outcome.refusal.ResponseStatus(),
                                                       ErrorBody(outcome.refusal), now)))
    else if !a.upload.fits then
      reserved.(records := Execute(s.records, ReleaseLease(a.scope, now)))
    else if outcome.SameCapture? then
      reserved.(records := Execute(s.records, Complete(a.scope, 200, MaterialBody(outcome.artifact), now)),
                told := s.told + Tell(s, a.scope, 200, outcome.artifact))
    else
      var row := NewRow(a, GuideMaterial, Micro(now));
      if !row.Valid() || Taken(s.artifacts, row) then s
      else s.(artifacts := s.artifacts[row.id := row],
              materials := s.materials + {row.id},
              records := Execute(s.records, Complete(a.scope, 201, MaterialBody(row.id), now)),
              created := s.created + [row],
              told := s.told + Tell(s, a.scope, 201, row.id))
  }

  /** Last transaction of a material upload. Unlike the screenshot upload it does not compare the
      record's artifact ID with the one its claim was given. */
  function FinishMaterial(s: State, attempt: Id, outcome: MaterialOutcome, taskId: Id, now: Time): (r: State)
    ensures r.pinned == s.pinned && r.strayed == s.strayed
  {
    var s' := s.(attempts := s.attempts - {attempt}, used := s.used + {taskId});
    if MaterialReplays(s, attempt)
    then Replayed(s', s.attempts[attempt].scope, s.records[s.attempts[attempt].scope])
    else if MaterialProceeds(s, attempt) then AnswerUpload(s', s.attempts[attempt], outcome, taskId, now)
    else s'
  }

  // ---------------------------------------------------------------------------- references

  predicate Unreserved(s: State, id: Id) {
    id in s.artifacts && s.artifacts[id].purpose == RequestScreenshot && s.artifacts[id].storageKey !in s.tasks
  }

  /** A foreign key refers to the artifact. */
  predicate Referenced(s: State, id: Id) { id in s.pinned || id in s.strayed || id in s.materials }

  /** A support request takes a screenshot that has no deletion task, under the lock of its row. */
  function Pin(s: State, id: Id): State {
    if Unreserved(s, id) then s.(pinned := s.pinned + {id}) else s
  }

  /** A request from a guide run first only reads the screenshot, without a lock, */
  function ReadForRun(s: State, tx: Id, id: Id): State {
    if Unreserved(s, id) then s.(readers := s.readers[tx := id]) else s
  }

  /** and then refers to it, reserved by now or not: the foreign key asks for no more than the row. */
  function TakeForRun(s: State, tx: Id): State {
    if tx !in s.readers then s else
    var id := s.readers[tx];
    var reserved := id in s.artifacts && s.artifacts[id].storageKey in s.tasks;
    s.(readers := s.readers - {tx},
       strayed := if reserved then s.strayed + {id} else s.strayed,
       pinned := if id in s.artifacts && !reserved then s.pinned + {id} else s.pinned)
  }

  /** A reviewed guide keeps a material: it becomes a guide step and leaves its batch. */
  function Promote(s: State, id: Id, now: Time): State {
    if id !in s.materials || id !in s.artifacts || Micro(now) < s.artifacts[id].createdAt then s else
    var row := s.artifacts[id];
    s.(artifacts := s.artifacts[id := row.(purpose := GuideStep, updatedAt := Micro(now), revision := row.revision + 1)],
       pinned := s.pinned + {id}, materials := s.materials - {id})
  }

  /** A review or a cancelled guide drops a material: its deletion is reserved and it leaves its batch. */
  function DropMaterial(s: State, id: Id, taskId: Id, now: Time): State {
    if id !in s.materials || id !in s.artifacts then s
    else Reserve(s.(materials := s.materials - {id}, used := s.used + {taskId}),
                 s.artifacts[id].storageKey, NewTask(taskId, Some(id), now))
  }

  // ------------------------------------------------------------------------------- cleanup

  /** A row that cleanup's listing and both its re-checks let through. */
  predicate Stale(s: State, id: Id, now: Time) {
    && id in s.artifacts
    && s.artifacts[id].purpose == RequestScreenshot
    && s.artifacts[id].createdAt <= Micro(now - DAY)
    && !Referenced(s, id)
    && s.artifacts[id].storageKey !in s.tasks
  }

  function ReserveStale(s: State, id: Id, taskId: Id, now: Time): State {
    if !Stale(s, id, now) then s
    else Reserve(s.(used := s.used + {taskId}), s.artifacts[id].storageKey, NewTask(taskId, Some(id), now))
  }

  predicate Abandoned(scope: Scope, record: Record<Upload, Body>) {
    record.status == InProgress && record.resource.Some? && IsUploadPath(scope.path)
  }

  function ExpireRecord(s: State, scope: Scope, taskId: Id, now: Time): State {
    if scope !in s.records || !Expired(s.records[scope], now) then s else
    var record := s.records[scope];
    var s' := s.(records := s.records - {scope});
    if Abandoned(scope, record)
    then Reserve(s'.(used := s.used + {taskId}), KeyOf(scope, record.resource.value), NewTask(taskId, None, now))
    else s'
  }

  // ------------------------------------------------------------------------------- deletion

  predicate Due(s: State, key: Key, now: Time) {
    key in s.tasks && !s.tasks[key].running && s.tasks[key].nextAttemptAt <= Micro(now)
  }

  function MarkRunning(s: State, worker: Id, key: Key, now: Time): State {
    if worker in s.deletions || !Due(s, key, now) then s else
    var task := s.tasks[key].(running := true, attempt := s.tasks[key].attempt + 1);
    s.(tasks := s.tasks[key := task], deletions := s.deletions[worker := Deletion(key, task, Marked)])
  }

  function EraseSucceeds(s: State, worker: Id): State {
    if worker !in s.deletions || s.deletions[worker].erasure != Marked then s
    else s.(objects := s.objects - {s.deletions[worker].key},
            deletions := s.deletions[worker := s.deletions[worker].(erasure := Erased)])
  }

  function EraseFails(s: State, worker: Id, applied: bool, late: bool): State {
    if worker !in s.deletions || s.deletions[worker].erasure != Marked then s
    else s.(objects := if applied then s.objects - {s.deletions[worker].key} else s.objects,
            lateDeletes := if late then s.lateDeletes + {s.deletions[worker].key} else s.lateDeletes,
            deletions := s.deletions[worker := s.deletions[worker].(erasure := Failed)])
  }

  function LateDelete(s: State, key: Key): State {
    if key in s.lateDeletes then s.(objects := s.objects - {key}) else s
  }

  /** 1, 2, 4, ... seconds: the exponent stops at eleven, so the one-hour cap is never met. */
  function RetryDelay(attempt: int): (d: Time)
    ensures SECOND <= d <= 2048 * SECOND
    ensures attempt <= 1 ==> d == SECOND
    ensures 1 <= attempt < 12 ==> RetryDelay(attempt + 1) == 2 * d
    ensures attempt >= 12 ==> d == 2048 * SECOND
    decreases 12 - attempt
  {
    var n := if attempt < 1 then 1 else if attempt > 12 then 12 else attempt;
    var doubled := SECOND * [1, 2, 4, 8, 16, 32, 64, 128, 256, 512, 1024, 2048][n - 1];
    if doubled > 60 * MINUTE then 60 * MINUTE else doubled
  }

  /** The statements of the deletion worker that name a task by its ID. */
  function RetryTask(tasks: map<Key, Task>, id: Id, next: Time): map<Key, Task> {
    map k | k in tasks :: if tasks[k].id == id && tasks[k].running
                          then tasks[k].(running := false, nextAttemptAt := Micro(next)) else tasks[k]
  }

  function DeleteTask(tasks: map<Key, Task>, id: Id): map<Key, Task> {
    map k | k in tasks && tasks[k].id != id :: tasks[k]
  }

  /** A worker whose DELETE failed, or whose last transaction did, puts the task back. */
  function Retry(s: State, worker: Id, now: Time): State {
    if worker !in s.deletions || s.deletions[worker].erasure == Marked then s else
    var task := s.deletions[worker].task;
    s.(tasks := RetryTask(s.tasks, task.id, now + RetryDelay(task.attempt)), deletions := s.deletions - {worker})
  }

  /** The worker's DELETE of its row meets a foreign key. */
  predicate DeleteRefused(s: State, worker: Id)
    requires worker in s.deletions
  {
    s.deletions[worker].task.artifact.Some? && Referenced(s, s.deletions[worker].task.artifact.value)
  }

  /** Last transaction of a deletion: the row, unless a foreign key refuses, and the task. A refused worker is
      left to put its task back. */
  function FinishDeletion(s: State, worker: Id): State {
    if worker !in s.deletions || s.deletions[worker].erasure != Erased || DeleteRefused(s, worker) then s else
    var task := s.deletions[worker].task;
    s.(artifacts := if task.artifact.Some? then s.artifacts - {task.artifact.value} else s.artifacts,
       tasks := DeleteTask(s.tasks, task.id), deletions := s.deletions - {worker})
  }

  function RecoverTasks(s: State): State {
    s.(tasks := map k | k in s.tasks :: s.tasks[k].(running := false))
  }

  function CrashDeletion(s: State, worker: Id): State {
    s.(deletions := s.deletions - {worker})
  }

  // ------------------------------------------------------------------------------------- runs

  datatype Event =
    | EBeginUpload(attempt: Id, scope: Scope, upload: Upload, candidate: Id, now: Time)
    | EPutSucceeds(attempt: Id)
    | EPutFails(attempt: Id, applied: bool, late: bool, definite: bool)
    | ELatePut(key: Key, picture: Picture)
    | ERelease(attempt: Id, now: Time)
    | ERefuseMaterial(attempt: Id, refusal: Refusal, now: Time)
    | ECrashUpload(attempt: Id)
    | EFinishScreenshot(attempt: Id, now: Time)
    | EFinishMaterial(attempt: Id, outcome: MaterialOutcome, taskId: Id, now: Time)
    | EPin(id: Id)
    | EReadForRun(tx: Id, id: Id)
    | ETakeForRun(tx: Id)
    | EPromote(id: Id, now: Time)
    | EDropMaterial(id: Id, taskId: Id, now: Time)
    | EReserveStale(id: Id, taskId: Id, now: Time)
    | EExpireRecord(scope: Scope, taskId: Id, now: Time)
    | EMarkRunning(worker: Id, key: Key, now: Time)
    | EEraseSucceeds(worker: Id)
    | EEraseFails(worker: Id, applied: bool, late: bool)
    | ELateDelete(key: Key)
    | ERetry(worker: Id, now: Time)
    | EFinishDeletion(worker: Id)
    | ERecoverTasks
    | ECrashDeletion(worker: Id)
  {
    /** A transaction or storage answer of an upload. */
    predicate OfUpload() {
      || EBeginUpload? || EPutSucceeds? || EPutFails? || ELatePut? || ERelease? || ERefuseMaterial? || ECrashUpload?
      || EFinishScreenshot? || EFinishMaterial?
    }

    /** A reference that begins or moves. */
    predicate OfReference() { EPin? || EReadForRun? || ETakeForRun? || EPromote? || EDropMaterial? }

    predicate OfCleanup() { EReserveStale? || EExpireRecord? }

    predicate OfDeletion() { !OfUpload() && !OfReference() && !OfCleanup() }
  }

  function Next(s: State, e: Event): State {
    match e
    case EBeginUpload(attempt, scope, upload, candidate, now) => BeginUpload(s, attempt, scope, upload, candidate, now)
    case EPutSucceeds(attempt) => PutSucceeds(s, attempt)
    case EPutFails(attempt, applied, late, definite) => PutFails(s, attempt, applied, late, definite)
    case ELatePut(key, picture) => LatePut(s, key, picture)
    case ERelease(attempt, now) => Release(s, attempt, now)
    case ERefuseMaterial(attempt, refusal, now) => RefuseMaterial(s, attempt, refusal, now)
    case ECrashUpload(attempt) => CrashUpload(s, attempt)
    case EFinishScreenshot(attempt, now) => FinishScreenshot(s, attempt, now)
    case EFinishMaterial(attempt, outcome, taskId, now) => FinishMaterial(s, attempt, outcome, taskId, now)
    case EPin(id) => Pin(s, id)
    case EReadForRun(tx, id) => ReadForRun(s, tx, id)
    case ETakeForRun(tx) => TakeForRun(s, tx)
    case EPromote(id, now) => Promote(s, id, now)
    case EDropMaterial(id, taskId, now) => DropMaterial(s, id, taskId, now)
    case EReserveStale(id, taskId, now) => ReserveStale(s, id, taskId, now)
    case EExpireRecord(scope, taskId, now) => ExpireRecord(s, scope, taskId, now)
    case EMarkRunning(worker, key, now) => MarkRunning(s, worker, key, now)
    case EEraseSucceeds(worker) => EraseSucceeds(s, worker)
    case EEraseFails(worker, applied, late) => EraseFails(s, worker, applied, late)
    case ELateDelete(key) => LateDelete(s, key)
    case ERetry(worker, now) => Retry(s, worker, now)
    case EFinishDeletion(worker) => FinishDeletion(s, worker)
    case ERecoverTasks => RecoverTasks(s)
    case ECrashDeletion(worker) => CrashDeletion(s, worker)
  }

  /** Assumptions on one step: generated IDs are new, an attempt's local name is not in use, the keys of
      upload requests belong to upload routes, and only a row the listing returned is a same capture. */
  predicate Fair(s: State, e: Event) {
    match e
    case EBeginUpload(attempt, scope, upload, candidate, now) =>
      candidate !in s.used && attempt !in s.attempts && IsUploadPath(scope.path)
    case EFinishMaterial(_, outcome, taskId, _) =>
      taskId !in s.used && (outcome.SameCapture? ==> outcome.artifact in s.materials)
    case EDropMaterial(_, taskId, _) => taskId !in s.used
    case EReserveStale(_, taskId, _) => taskId !in s.used
    case EExpireRecord(_, taskId, _) => taskId !in s.used
    case _ => true
  }
}
