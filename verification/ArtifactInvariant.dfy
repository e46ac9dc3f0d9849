/** What every step of the artifact protocol keeps. */
module ArtifactInvariant {
  import opened Common
  import opened Entities
  import opened Idempotency
  import opened ArtifactStore

  type Records = Table<Upload, Body>
  type Claims = map<Id, FirstClaim>

  // ------------------------------------------------------------------------------- vocabulary

  /** The claim may end in a row: a screenshot, or a material within the bounds of its batch. */
  predicate Fits(claim: FirstClaim) { claim.scope.path.ArtifactUpload? || claim.upload.fits }

  function KeyFor(claims: Claims, r: Id): Key
    requires r in claims
  {
    Key(claims[r].scope.actor, r)
  }

  /** The record that chose `r` is still there and unanswered. */
  predicate Open(records: Records, claims: Claims, r: Id) {
    && r in claims && claims[r].scope in records
    && records[claims[r].scope].status == InProgress
    && records[claims[r].scope].resource == Some(r)
  }

  /** A DELETE of the object is about to be sent, or one whose answer was lost may still arrive. */
  ghost predicate Threat(lateDeletes: set<Key>, deletions: map<Id, Deletion>, key: Key) {
    key in lateDeletes || exists w :: w in deletions && deletions[w].key == key && deletions[w].erasure == Marked
  }

  ghost predicate Made(created: seq<Artifact>, r: Id) {
    exists i :: 0 <= i < |created| && created[i].id == r
  }

  /** The row is the one the claim asked for; purpose, update time and revision may have moved on. */
  predicate RowFits(row: Artifact, claim: FirstClaim) {
    && Fits(claim)
    && row.owner == claim.scope.actor && row.storageKey == Key(row.owner, row.id)
    && row.sha256 == claim.upload.picture.sha256 && row.byteSize == |claim.upload.picture.bytes|
    && row.width == claim.upload.picture.width && row.height == claim.upload.picture.height
    && row.capturedAt == Micro(claim.upload.capturedAt)
    && (row.purpose == RequestScreenshot ==> claim.scope.path.ArtifactUpload?)
  }

  // ------------------------------------------------------------------- the safety of the storage
  //
  // `Kept` is what every step keeps whose registered images are safe, and it is all that the availability of
  // images needs.

  ghost predicate RecordsOk(records: Records, claims: Claims) {
    && ValidTable(records)
    && forall scope :: scope in records ==>
         && IsUploadPath(scope.path) && records[scope].resource.Some?
         && records[scope].resource.value in claims
         && claims[records[scope].resource.value] == FirstClaim(scope, records[scope].hash, records[scope].createdAt)
  }

  /** An unanswered claim has no row, and, unless it can never have one, nothing threatens its object. */
  ghost predicate OpenOk(
    records: Records, claims: Claims, artifacts: map<Id, Artifact>, tasks: map<Key, Task>,
    lateDeletes: set<Key>, deletions: map<Id, Deletion>)
  {
    forall r :: Open(records, claims, r) ==>
      && r !in artifacts
      && (Fits(claims[r]) ==> KeyFor(claims, r) !in tasks && !Threat(lateDeletes, deletions, KeyFor(claims, r)))
  }

  predicate AttemptOk(a: Attempt, records: Records, claims: Claims, objects: map<Key, Picture>) {
    && a.resource in claims && claims[a.resource].scope == a.scope && claims[a.resource].upload == a.upload
    && (a.phase == Stored && Open(records, claims, a.resource) && Fits(claims[a.resource]) ==>
          KeyFor(claims, a.resource) in objects)
  }

  ghost predicate AttemptsOk(
    attempts: map<Id, Attempt>, records: Records, claims: Claims, objects: map<Key, Picture>)
  {
    forall t :: t in attempts ==> AttemptOk(attempts[t], records, claims, objects)
  }

  predicate ContentOk(claims: Claims, key: Key, picture: Picture) {
    key.id in claims && key == KeyFor(claims, key.id) && picture == claims[key.id].upload.picture
  }

  ghost predicate ObjectsOk(
    objects: map<Key, Picture>, latePuts: set<(Key, Picture)>, lateDeletes: set<Key>, claims: Claims)
  {
    && (forall key :: key in objects ==> ContentOk(claims, key, objects[key]))
    && (forall p :: p in latePuts ==> ContentOk(claims, p.0, p.1))
    && (forall key :: key in lateDeletes ==> key.id in claims)
  }

  /** A row's object is in storage and nothing threatens it, unless the row's deletion is reserved. */
  ghost predicate RowsOk(
    artifacts: map<Id, Artifact>, claims: Claims, tasks: map<Key, Task>, objects: map<Key, Picture>,
    lateDeletes: set<Key>, deletions: map<Id, Deletion>)
  {
    forall id :: id in artifacts ==>
      && artifacts[id].id == id && id in claims && RowFits(artifacts[id], claims[id])
      && (|| artifacts[id].storageKey in tasks
          || (&& artifacts[id].storageKey in objects
              && !Threat(lateDeletes, deletions, artifacts[id].storageKey)))
  }

  /** A task, or a worker's copy of one, names its own artifact or none. */
  predicate TaskFits(key: Key, task: Task, claims: Claims, used: set<Id>) {
    && key.id in claims && key == KeyFor(claims, key.id) && task.id in used
    && (task.artifact.Some? ==> task.artifact.value == key.id)
  }

  /** A task that names none is for an object without a row. */
  ghost predicate TasksOk(
    tasks: map<Key, Task>, deletions: map<Id, Deletion>, claims: Claims, used: set<Id>, artifacts: map<Id, Artifact>)
  {
    && (forall key :: key in tasks ==>
          TaskFits(key, tasks[key], claims, used) && (tasks[key].artifact.None? ==> key.id !in artifacts))
    && (forall w :: w in deletions ==> TaskFits(deletions[w].key, deletions[w].task, claims, used))
  }

  /** Task IDs tell tasks apart, also from a copy whose task is gone. */
  ghost predicate TaskIdsOk(tasks: map<Key, Task>, deletions: map<Id, Deletion>) {
    && (forall k, l :: k in tasks && l in tasks && tasks[k].id == tasks[l].id ==> k == l)
    && (forall k, w :: k in tasks && w in deletions && tasks[k].id == deletions[w].task.id ==>
          k == deletions[w].key && tasks[k].artifact == deletions[w].task.artifact)
  }

  ghost predicate Kept(s: State) {
    && RecordsOk(s.records, s.claims)
    && OpenOk(s.records, s.claims, s.artifacts, s.tasks, s.lateDeletes, s.deletions)
    && AttemptsOk(s.attempts, s.records, s.claims, s.objects)
    && ObjectsOk(s.objects, s.latePuts, s.lateDeletes, s.claims)
    && RowsOk(s.artifacts, s.claims, s.tasks, s.objects, s.lateDeletes, s.deletions)
    && TasksOk(s.tasks, s.deletions, s.claims, s.used, s.artifacts)
    && TaskIdsOk(s.tasks, s.deletions)
    && s.claims.Keys <= s.used
  }

  // ---------------------------------------------------------------- what a fenced run keeps besides

  /** A row was created once, and an unanswered claim has never had one. */
  ghost predicate MadeOk(records: Records, claims: Claims, created: seq<Artifact>, artifacts: map<Id, Artifact>) {
    && (forall id :: id in artifacts ==> Made(created, id))
    && (forall r :: Open(records, claims, r) ==> !Made(created, r))
  }

  /** A task or copy that names an artifact is for a row that was made; and the row of a copy, while it is still
      there, is reserved by that very task. */
  ghost predicate CopiesOk(
    created: seq<Artifact>, artifacts: map<Id, Artifact>, tasks: map<Key, Task>, deletions: map<Id, Deletion>)
  {
    && (forall k :: k in tasks && tasks[k].artifact.Some? ==> Made(created, tasks[k].artifact.value))
    && (forall w :: w in deletions && deletions[w].task.artifact.Some? ==>
          && Made(created, deletions[w].task.artifact.value)
          && (deletions[w].task.artifact.value in artifacts ==>
                deletions[w].key in tasks && tasks[deletions[w].key].id == deletions[w].task.id))
  }

  ghost predicate PinsOk(
    pinned: set<Id>, materials: set<Id>, artifacts: map<Id, Artifact>, tasks: map<Key, Task>, claims: Claims)
  {
    && (forall id :: id in pinned || id in materials ==> id in artifacts && artifacts[id].storageKey !in tasks)
    && (forall id :: id in materials ==>
          artifacts[id].purpose == GuideMaterial && id in claims && claims[id].scope.path.MaterialUpload?)
    && pinned !! materials
  }

  /** An image taken while it was reserved stays, and stays reserved. */
  ghost predicate StraysOk(
    strayed: set<Id>, readers: map<Id, Id>, artifacts: map<Id, Artifact>, tasks: map<Key, Task>, claims: Claims)
  {
    && (forall id :: id in strayed ==> id in artifacts && artifacts[id].storageKey in tasks)
    && (forall tx :: tx in readers ==> readers[tx] in claims && claims[readers[tx]].scope.path.ArtifactUpload?)
  }

  ghost predicate HistoryOk(claims: Claims, created: seq<Artifact>) {
    && (forall i :: 0 <= i < |created| ==>
          created[i].id in claims && created[i].Valid() && RowFits(created[i], claims[created[i].id]))
    && (forall i, j :: 0 <= i < j < |created| ==> created[i].id != created[j].id)
  }

  /** What a completed record answers: a screenshot always the artifact of its own claim. */
  ghost predicate BodyOk(created: seq<Artifact>, scope: Scope, r: Record<Upload, Body>) {
    if scope.path.ArtifactUpload? then
      r.responseStatus == Some(201) && r.body.Some? && r.resource.Some? &&
      exists i :: 0 <= i < |created| && created[i].id == r.resource.value
                  && r.body.value == ArtifactBody(EncodeArtifact(created[i]))
    else
      r.body.Some? && !r.body.value.ArtifactBody? &&
      (r.responseStatus == Some(201) ==>
         r.resource.Some? && Made(created, r.resource.value) && r.body.value == MaterialBody(r.resource.value))
  }

  ghost predicate CompletedOk(records: Records, created: seq<Artifact>) {
    forall scope :: scope in records && records[scope].status == Completed ==> BodyOk(created, scope, records[scope])
  }

  ghost predicate AnswersOk(answers: set<Answer>, created: seq<Artifact>, claims: Claims) {
    forall a :: a in answers ==>
      && a.artifact in created && a.artifact.id == a.resource
      && a.resource in claims && claims[a.resource].scope == a.scope && a.scope.path.ArtifactUpload?
  }

  /** A caller told of a new material is told of the one of its own claim. */
  ghost predicate ToldOk(told: set<Told>, created: seq<Artifact>) {
    forall t :: t in told && t.status == 201 ==> t.artifact == t.resource && Made(created, t.resource)
  }

  ghost predicate Tidy(s: State) {
    && MadeOk(s.records, s.claims, s.created, s.artifacts)
    && CopiesOk(s.created, s.artifacts, s.tasks, s.deletions)
    && PinsOk(s.pinned, s.materials, s.artifacts, s.tasks, s.claims)
    && StraysOk(s.strayed, s.readers, s.artifacts, s.tasks, s.claims)
    && HistoryOk(s.claims, s.created)
    && CompletedOk(s.records, s.created)
    && AnswersOk(s.answers, s.created, s.claims)
    && ToldOk(s.told, s.created)
  }

  ghost predicate Inv(s: State) { Kept(s) && Tidy(s) }

  /** Both invariants survive the step. */
  ghost predicate Keeps(s: State, s': State) { Kept(s') && (Tidy(s) ==> Tidy(s')) }

  lemma EmptyInv()
    ensures Inv(EMPTY)
  {
  }

  // ---------------------------------------------------------------------------------- storage

  lemma AttemptContent(s: State, t: Id)
    requires Kept(s) && t in s.attempts
    ensures ContentOk(s.claims, KeyOf(s.attempts[t].scope, s.attempts[t].resource), s.attempts[t].upload.picture)
  {
    assert AttemptOk(s.attempts[t], s.records, s.claims, s.objects);
  }

  /** Storing the claim's own picture under the claim's own key. */
  lemma StoreKeeps(s: State, key: Key, picture: Picture)
    requires Kept(s) && ContentOk(s.claims, key, picture)
    ensures Keeps(s, s.(objects := s.objects[key := picture]))
  {
  }

  lemma LosePut(s: State, key: Key, picture: Picture)
    requires Kept(s) && ContentOk(s.claims, key, picture)
    ensures Keeps(s, s.(latePuts := s.latePuts + {(key, picture)}))
  {
  }

  lemma AttemptMoves(s: State, t: Id, phase: Phase)
    requires Kept(s) && t in s.attempts
    requires phase == Stored ==> KeyOf(s.attempts[t].scope, s.attempts[t].resource) in s.objects
    ensures Keeps(s, s.(attempts := s.attempts[t := s.attempts[t].(phase := phase)]))
  {
    assert AttemptOk(s.attempts[t], s.records, s.claims, s.objects);
  }

  lemma CrashUploadKeeps(s: State, t: Id)
    requires Kept(s)
    ensures Keeps(s, CrashUpload(s, t))
  {
  }

  lemma PutSucceedsKeeps(s: State, t: Id)
    requires Kept(s)
    ensures Keeps(s, PutSucceeds(s, t))
  {
    hide Kept, Tidy;
    if t in s.attempts && s.attempts[t].phase == Putting {
      var a := s.attempts[t];
      AttemptContent(s, t);
      StoreKeeps(s, KeyOf(a.scope, a.resource), a.upload.picture);
      AttemptMoves(s.(objects := s.objects[KeyOf(a.scope, a.resource) := a.upload.picture]), t, Stored);
    }
  }

  lemma PutFailsKeeps(s: State, t: Id, applied: bool, late: bool, definite: bool)
    requires Kept(s)
    ensures Keeps(s, PutFails(s, t, applied, late, definite))
  {
    hide Kept, Tidy, ContentOk;
    if t in s.attempts && s.attempts[t].phase == Putting {
      var key, picture := KeyOf(s.attempts[t].scope, s.attempts[t].resource), s.attempts[t].upload.picture;
      AttemptContent(s, t);
      var s1 := s;
      if applied {
        StoreKeeps(s, key, picture);
        s1 := s.(objects := s.objects[key := picture]);
      }
      if late {
        LosePut(s1, key, picture);
        s1 := s1.(latePuts := s1.latePuts + {(key, picture)});
      }
      if definite {
        AttemptMoves(s1, t, Releasing);
      } else {
        CrashUploadKeeps(s1, t);
      }
    }
  }

  lemma LatePutKeeps(s: State, key: Key, picture: Picture)
    requires Kept(s)
    ensures Keeps(s, LatePut(s, key, picture))
  {
    if (key, picture) in s.latePuts {
      StoreKeeps(s, key, picture);
    }
  }

  // ---------------------------------------------------------------------------------- records

  /** A record keeps its claim, and is no more open than it was. */
  predicate Settles(r: Record<Upload, Body>, r': Record<Upload, Body>) {
    && r'.Valid() && r'.Stored()
    && r'.hash == r.hash && r'.resource == r.resource && r'.createdAt == r.createdAt
    && (r'.status == InProgress ==> r.status == InProgress)
  }

  lemma SettleRecords(records: Records, claims: Claims, scope: Scope, r': Record<Upload, Body>)
    requires RecordsOk(records, claims) && scope in records && Settles(records[scope], r')
    ensures RecordsOk(records[scope := r'], claims)
    ensures forall r :: Open(records[scope := r'], claims, r) ==> Open(records, claims, r)
  {
  }

  /** Fewer open claims ask for less. */
  lemma FewerOpen(s: State, records': Records)
    requires OpenOk(s.records, s.claims, s.artifacts, s.tasks, s.lateDeletes, s.deletions)
    requires AttemptsOk(s.attempts, s.records, s.claims, s.objects)
    requires forall r :: Open(records', s.claims, r) ==> Open(s.records, s.claims, r)
    ensures OpenOk(records', s.claims, s.artifacts, s.tasks, s.lateDeletes, s.deletions)
    ensures AttemptsOk(s.attempts, records', s.claims, s.objects)
  {
  }

  lemma FewerAttempts(attempts: map<Id, Attempt>, t: Id, records: Records, claims: Claims, objects: map<Key, Picture>)
    requires AttemptsOk(attempts, records, claims, objects)
    ensures AttemptsOk(attempts - {t}, records, claims, objects)
  {
  }

  /** One record settled by an attempt that ends. */
  lemma SettleKeeps(s: State, t: Id, scope: Scope, r': Record<Upload, Body>)
    requires Kept(s) && scope in s.records && Settles(s.records[scope], r')
    requires Tidy(s) && r'.status == Completed ==> BodyOk(s.created, scope, r')
    ensures Keeps(s, s.(records := s.records[scope := r'], attempts := s.attempts - {t}))
  {
    SettleRecords(s.records, s.claims, scope, r');
    FewerOpen(s, s.records[scope := r']);
    FewerAttempts(s.attempts, t, s.records[scope := r'], s.claims, s.objects);
    if Tidy(s) {
      SettleTidy(s, scope, r');
    }
  }

  lemma SettleTidy(s: State, scope: Scope, r': Record<Upload, Body>)
    requires MadeOk(s.records, s.claims, s.created, s.artifacts) && CompletedOk(s.records, s.created)
    requires forall r :: Open(s.records[scope := r'], s.claims, r) ==> Open(s.records, s.claims, r)
    requires r'.status == Completed ==> BodyOk(s.created, scope, r')
    ensures MadeOk(s.records[scope := r'], s.claims, s.created, s.artifacts)
    ensures CompletedOk(s.records[scope := r'], s.created)
  {
    hide BodyOk, Made;
  }

  lemma ReleaseSettles(records: Records, claims: Claims, scope: Scope, now: Time)
    requires RecordsOk(records, claims) && scope in records && records[scope].status == InProgress
    ensures Execute(records, ReleaseLease(scope, now))
            == records[scope := Execute(records, ReleaseLease(scope, now))[scope]]
    ensures Settles(records[scope], Execute(records, ReleaseLease(scope, now))[scope])
  {
  }

  lemma CompleteSettles(records: Records, claims: Claims, scope: Scope, status: int, body: Body, now: Time)
    requires RecordsOk(records, claims) && scope in records && records[scope].status == InProgress
    ensures Execute(records, Complete(scope, status, body, now))
            == records[scope := Execute(records, Complete(scope, status, body, now))[scope]]
    ensures Settles(records[scope], Execute(records, Complete(scope, status, body, now))[scope])
  {
  }

  lemma ReleaseStep(s: State, t: Id, scope: Scope, now: Time)
    requires Kept(s) && scope in s.records && s.records[scope].status == InProgress
    ensures Keeps(s, s.(records := Execute(s.records, ReleaseLease(scope, now)), attempts := s.attempts - {t}))
  {
    ReleaseSettles(s.records, s.claims, scope, now);
    SettleKeeps(s, t, scope, Execute(s.records, ReleaseLease(scope, now))[scope]);
  }

  lemma CompleteStep(s: State, t: Id, scope: Scope, status: int, body: Body, now: Time)
    requires Kept(s) && scope in s.records && s.records[scope].status == InProgress
    requires Tidy(s) ==> BodyOk(s.created, scope, Execute(s.records, Complete(scope, status, body, now))[scope])
    ensures Keeps(s, s.(records := Execute(s.records, Complete(scope, status, body, now)), attempts := s.attempts - {t}))
  {
    CompleteSettles(s.records, s.claims, scope, status, body, now);
    SettleKeeps(s, t, scope, Execute(s.records, Complete(scope, status, body, now))[scope]);
  }

  lemma ReleaseKeeps(s: State, t: Id, now: Time)
    requires Kept(s)
    ensures Keeps(s, Release(s, t, now))
  {
    hide Kept, Tidy;
    if t in s.attempts && s.attempts[t].phase == Releasing {
      var scope := s.attempts[t].scope;
      if scope in s.records && s.records[scope].status == InProgress {
        ReleaseStep(s, t, scope, now);
      } else {
        CrashUploadKeeps(s, t);
      }
    }
  }

  lemma RefusalBodyOk(records: Records, created: seq<Artifact>, scope: Scope, refusal: Refusal, now: Time)
    requires scope in records && records[scope].status == InProgress
    requires scope.path.MaterialUpload?
    ensures BodyOk(created, scope,
                   Execute(records, Complete(scope, refusal.ResponseStatus(), ErrorBody(refusal), now))[scope])
  {
  }

  lemma RefuseMaterialKeeps(s: State, t: Id, refusal: Refusal, now: Time)
    requires Kept(s)
    ensures Keeps(s, RefuseMaterial(s, t, refusal, now))
  {
    hide Kept, Tidy;
    if t in s.attempts && s.attempts[t].phase == Putting && s.attempts[t].scope.path.MaterialUpload? {
      var scope := s.attempts[t].scope;
      if scope in s.records && s.records[scope].status == InProgress {
        RefusalBodyOk(s.records, s.created, scope, refusal, now);
        CompleteStep(s, t, scope, refusal.ResponseStatus(), ErrorBody(refusal), now);
      } else {
        CrashUploadKeeps(s, t);
      }
    }
  }

  // ------------------------------------------------------------------------------- references

  /** History and references play no part in what is kept. */
  lemma SameKept(s: State, s': State)
    requires Kept(s)
    requires s' == s.(pinned := s'.pinned, strayed := s'.strayed, readers := s'.readers, materials := s'.materials,
                      created := s'.created, answers := s'.answers, told := s'.told)
    ensures Kept(s')
  {
  }

  lemma ReferTidy(s: State, s': State)
    requires Tidy(s) && s' == s.(pinned := s'.pinned, strayed := s'.strayed, readers := s'.readers, materials := s'.materials)
    requires PinsOk(s'.pinned, s'.materials, s.artifacts, s.tasks, s.claims)
    requires StraysOk(s'.strayed, s'.readers, s.artifacts, s.tasks, s.claims)
    ensures Tidy(s')
  {
    hide PinsOk, StraysOk, MadeOk, CopiesOk, HistoryOk, CompletedOk, AnswersOk, ToldOk;
  }

  lemma PinOne(
      pinned: set<Id>, materials: set<Id>, artifacts: map<Id, Artifact>, tasks: map<Key, Task>, claims: Claims, id: Id)
    requires PinsOk(pinned, materials, artifacts, tasks, claims) && id !in materials
    requires id in artifacts && artifacts[id].storageKey !in tasks
    ensures PinsOk(pinned + {id}, materials, artifacts, tasks, claims)
  {
  }

  lemma StrayOne(s: State, tx: Id, id: Id)
    requires StraysOk(s.strayed, s.readers, s.artifacts, s.tasks, s.claims)
    ensures StraysOk(s.strayed, s.readers - {tx}, s.artifacts, s.tasks, s.claims)
    ensures id in s.artifacts && s.artifacts[id].storageKey in s.tasks ==>
              StraysOk(s.strayed + {id}, s.readers - {tx}, s.artifacts, s.tasks, s.claims)
    ensures id in s.claims && s.claims[id].scope.path.ArtifactUpload? ==>
              StraysOk(s.strayed, s.readers[tx := id], s.artifacts, s.tasks, s.claims)
  {
  }

  lemma PinKeeps(s: State, id: Id)
    requires Kept(s)
    ensures Keeps(s, Pin(s, id))
  {
    SameKept(s, Pin(s, id));
    if Tidy(s) && Unreserved(s, id) {
      assert id !in s.materials;
      PinOne(s.pinned, s.materials, s.artifacts, s.tasks, s.claims, id);
      hide PinsOk, StraysOk;
      ReferTidy(s, Pin(s, id));
    }
    hide Kept, Tidy;
  }

  lemma ReadForRunKeeps(s: State, tx: Id, id: Id)
    requires Kept(s)
    ensures Keeps(s, ReadForRun(s, tx, id))
  {
    SameKept(s, ReadForRun(s, tx, id));
    if Tidy(s) && Unreserved(s, id) {
      assert id in s.claims && s.claims[id].scope.path.ArtifactUpload?;
      StrayOne(s, tx, id);
      hide PinsOk, StraysOk;
      ReferTidy(s, ReadForRun(s, tx, id));
    }
    hide Kept, Tidy;
  }

  lemma TakeTidy(s: State, tx: Id)
    requires PinsOk(s.pinned, s.materials, s.artifacts, s.tasks, s.claims) && tx in s.readers
    requires StraysOk(s.strayed, s.readers, s.artifacts, s.tasks, s.claims)
    ensures var s' := TakeForRun(s, tx);
            && PinsOk(s'.pinned, s'.materials, s.artifacts, s.tasks, s.claims)
            && StraysOk(s'.strayed, s'.readers, s.artifacts, s.tasks, s.claims)
  {
    var id := s.readers[tx];
    assert id !in s.materials;
    StrayOne(s, tx, id);
    if id in s.artifacts && s.artifacts[id].storageKey !in s.tasks {
      PinOne(s.pinned, s.materials, s.artifacts, s.tasks, s.claims, id);
    }
    hide PinsOk, StraysOk;
  }

  lemma TakeForRunKeeps(s: State, tx: Id)
    requires Kept(s)
    ensures Keeps(s, TakeForRun(s, tx))
  {
    hide Kept, PinsOk, StraysOk, MadeOk, CopiesOk, HistoryOk, CompletedOk, AnswersOk, ToldOk;
    SameKept(s, TakeForRun(s, tx));
    if Tidy(s) && tx in s.readers {
      TakeTidy(s, tx);
      ReferTidy(s, TakeForRun(s, tx));
    }
  }

  lemma PromoteRows(s: State, id: Id, row: Artifact)
    requires RowsOk(s.artifacts, s.claims, s.tasks, s.objects, s.lateDeletes, s.deletions)
    requires OpenOk(s.records, s.claims, s.artifacts, s.tasks, s.lateDeletes, s.deletions)
    requires id in s.artifacts
    requires row == s.artifacts[id].(purpose := row.purpose, updatedAt := row.updatedAt, revision := row.revision)
    requires row.purpose != RequestScreenshot
    ensures RowsOk(s.artifacts[id := row], s.claims, s.tasks, s.objects, s.lateDeletes, s.deletions)
    ensures OpenOk(s.records, s.claims, s.artifacts[id := row], s.tasks, s.lateDeletes, s.deletions)
  {
  }

  lemma PromoteTasks(s: State, id: Id, row: Artifact)
    requires TasksOk(s.tasks, s.deletions, s.claims, s.used, s.artifacts) && id in s.artifacts
    ensures TasksOk(s.tasks, s.deletions, s.claims, s.used, s.artifacts[id := row])
  {
  }

  lemma PromotePins(s: State, id: Id, row: Artifact)
    requires Tidy(s) && id in s.materials
    requires row.storageKey == s.artifacts[id].storageKey
    ensures PinsOk(s.pinned + {id}, s.materials - {id}, s.artifacts[id := row], s.tasks, s.claims)
    ensures StraysOk(s.strayed, s.readers, s.artifacts[id := row], s.tasks, s.claims)
    ensures CopiesOk(s.created, s.artifacts[id := row], s.tasks, s.deletions)
    ensures MadeOk(s.records, s.claims, s.created, s.artifacts[id := row])
  {
  }

  lemma PromoteKeeps(s: State, id: Id, now: Time)
    requires Kept(s)
    ensures Keeps(s, Promote(s, id, now))
  {
    var s' := Promote(s, id, now);
    if s' != s {
      PromoteRows(s, id, s'.artifacts[id]);
      PromoteTasks(s, id, s'.artifacts[id]);
      if Tidy(s) {
        PromotePins(s, id, s'.artifacts[id]);
      }
    }
  }

  // ------------------------------------------------------------------------------ reservations

  lemma MoreUsed(s: State, id: Id)
    requires Kept(s)
    ensures Keeps(s, s.(used := s.used + {id}))
  {
  }

  lemma ReserveTasks(s: State, key: Key, task: Task)
    requires TasksOk(s.tasks, s.deletions, s.claims, s.used, s.artifacts) && TaskIdsOk(s.tasks, s.deletions)
    requires key !in s.tasks && task.id !in s.used && TaskFits(key, task, s.claims, s.used + {task.id})
    requires task.artifact.None? ==> key.id !in s.artifacts
    ensures TasksOk(s.tasks[key := task], s.deletions, s.claims, s.used + {task.id}, s.artifacts)
    ensures TaskIdsOk(s.tasks[key := task], s.deletions)
  {
  }

  lemma ReserveRows(s: State, key: Key, task: Task)
    requires RowsOk(s.artifacts, s.claims, s.tasks, s.objects, s.lateDeletes, s.deletions)
    requires OpenOk(s.records, s.claims, s.artifacts, s.tasks, s.lateDeletes, s.deletions)
    requires key.id in s.claims && (Open(s.records, s.claims, key.id) ==> !Fits(s.claims[key.id]))
    ensures RowsOk(s.artifacts, s.claims, s.tasks[key := task], s.objects, s.lateDeletes, s.deletions)
    ensures OpenOk(s.records, s.claims, s.artifacts, s.tasks[key := task], s.lateDeletes, s.deletions)
  {
  }

  lemma ReserveTidy(s: State, key: Key, task: Task)
    requires RowsOk(s.artifacts, s.claims, s.tasks, s.objects, s.lateDeletes, s.deletions) && key !in s.tasks
    requires PinsOk(s.pinned, s.materials, s.artifacts, s.tasks, s.claims)
    requires StraysOk(s.strayed, s.readers, s.artifacts, s.tasks, s.claims)
    requires CopiesOk(s.created, s.artifacts, s.tasks, s.deletions)
    requires MadeOk(s.records, s.claims, s.created, s.artifacts)
    requires task.artifact.Some? ==> task.artifact.value in s.artifacts
    requires key.id !in s.pinned && key.id !in s.materials
    ensures PinsOk(s.pinned, s.materials, s.artifacts, s.tasks[key := task], s.claims)
    ensures StraysOk(s.strayed, s.readers, s.artifacts, s.tasks[key := task], s.claims)
    ensures CopiesOk(s.created, s.artifacts, s.tasks[key := task], s.deletions)
  {
    forall id | id in s.pinned || id in s.materials ensures s.artifacts[id].storageKey != key {
      assert s.artifacts[id].storageKey.id == id;
    }
    hide RowsOk, Made;
  }

  lemma ReserveKept(s: State, key: Key, task: Task)
    requires Kept(s) && task.id !in s.used && TaskFits(key, task, s.claims, s.used + {task.id})
    requires task.artifact.None? ==> key.id !in s.artifacts
    requires Open(s.records, s.claims, key.id) ==> !Fits(s.claims[key.id])
    ensures Kept(Reserve(s.(used := s.used + {task.id}), key, task))
  {
    MoreUsed(s, task.id);
    if key !in s.tasks {
      ReserveTasks(s, key, task);
      ReserveRows(s, key, task);
      hide OpenOk, RowsOk, TasksOk, TaskIdsOk, TaskFits, RecordsOk, AttemptsOk, ObjectsOk;
    }
  }

  /** Reserving the deletion of an object that no open claim waits for and no reference uses. */
  lemma ReserveKeeps(s: State, key: Key, task: Task)
    requires Kept(s) && task.id !in s.used && TaskFits(key, task, s.claims, s.used + {task.id})
    requires if task.artifact.Some? then key.id in s.artifacts else key.id !in s.artifacts
    requires Open(s.records, s.claims, key.id) ==> !Fits(s.claims[key.id])
    requires Tidy(s) ==> key.id !in s.pinned && key.id !in s.materials
    ensures Keeps(s, Reserve(s.(used := s.used + {task.id}), key, task))
  {
    ReserveKept(s, key, task);
    if Tidy(s) && key !in s.tasks {
      ReserveTidy(s, key, task);
    }
    hide Kept, PinsOk, StraysOk, CopiesOk, MadeOk, TaskFits, HistoryOk, CompletedOk, AnswersOk, ToldOk;
  }

  lemma LeaveBatch(s: State, id: Id)
    requires Kept(s)
    ensures Keeps(s, s.(materials := s.materials - {id}))
  {
  }

  lemma DropMaterialKeeps(s: State, id: Id, taskId: Id, now: Time)
    requires Kept(s) && taskId !in s.used
    ensures Keeps(s, DropMaterial(s, id, taskId, now))
  {
    if id in s.materials && id in s.artifacts {
      LeaveBatch(s, id);
      RowClosed(s, id);
      var s1 := s.(materials := s.materials - {id});
      assert Tidy(s) ==> id !in s.pinned;
      hide Kept, Tidy;
      ReserveKept(s1, s.artifacts[id].storageKey, NewTask(taskId, Some(id), now));
      if Tidy(s) {
        ReserveKeeps(s1, s.artifacts[id].storageKey, NewTask(taskId, Some(id), now));
      }
    }
  }

  lemma RowClosed(s: State, id: Id)
    requires Kept(s) && id in s.artifacts
    ensures id in s.claims && s.artifacts[id].storageKey == KeyFor(s.claims, id)
    ensures !Open(s.records, s.claims, id)
  {
  }

  lemma ReserveStaleKeeps(s: State, id: Id, taskId: Id, now: Time)
    requires Kept(s) && taskId !in s.used
    ensures Keeps(s, ReserveStale(s, id, taskId, now))
  {
    if Stale(s, id, now) {
      RowClosed(s, id);
      ReserveKeeps(s, s.artifacts[id].storageKey, NewTask(taskId, Some(id), now));
    }
  }

  lemma ForgetRecords(records: Records, claims: Claims, scope: Scope)
    requires RecordsOk(records, claims)
    ensures RecordsOk(records - {scope}, claims)
    ensures forall r :: Open(records - {scope}, claims, r) ==> Open(records, claims, r) && claims[r].scope != scope
  {
  }

  lemma ForgetKeeps(s: State, scope: Scope)
    requires Kept(s)
    ensures Keeps(s, s.(records := s.records - {scope}))
  {
    ForgetRecords(s.records, s.claims, scope);
    FewerOpen(s, s.records - {scope});
    if Tidy(s) {
      ForgetTidy(s, scope);
    }
    hide OpenOk, RowsOk, TasksOk, TaskIdsOk, PinsOk, StraysOk, CopiesOk, MadeOk, HistoryOk, CompletedOk, AnswersOk,
         ToldOk, RecordsOk, AttemptsOk, ObjectsOk;
  }

  lemma ForgetTidy(s: State, scope: Scope)
    requires MadeOk(s.records, s.claims, s.created, s.artifacts) && CompletedOk(s.records, s.created)
    requires forall r :: Open(s.records - {scope}, s.claims, r) ==> Open(s.records, s.claims, r)
    ensures MadeOk(s.records - {scope}, s.claims, s.created, s.artifacts)
    ensures CompletedOk(s.records - {scope}, s.created)
  {
    hide BodyOk, Made;
  }

  lemma OpenHasNoRow(s: State, scope: Scope)
    requires Kept(s) && scope in s.records && s.records[scope].status == InProgress
    ensures var r := s.records[scope].resource.value;
            && r in s.claims && s.claims[r].scope == scope && Open(s.records, s.claims, r)
            && r !in s.artifacts && (Tidy(s) ==> r !in s.pinned && r !in s.materials)
  {
  }

  lemma ExpireRecordKeeps(s: State, scope: Scope, taskId: Id, now: Time)
    requires Kept(s) && taskId !in s.used
    ensures Keeps(s, ExpireRecord(s, scope, taskId, now))
  {
    if scope in s.records && Expired(s.records[scope], now) {
      ForgetKeeps(s, scope);
      if Abandoned(scope, s.records[scope]) {
        OpenHasNoRow(s, scope);
        var r := s.records[scope].resource.value;
        ReserveKeeps(s.(records := s.records - {scope}), KeyOf(scope, r), NewTask(taskId, None, now));
      }
    }
  }

  // --------------------------------------------------------------------------------- deletion

  /** The same tasks, though their status, attempt and times may differ. */
  predicate SameTasks(tasks: map<Key, Task>, tasks': map<Key, Task>) {
    && tasks'.Keys == tasks.Keys
    && forall k :: k in tasks ==> tasks'[k].id == tasks[k].id && tasks'[k].artifact == tasks[k].artifact
  }

  lemma SameTasksKeep(s: State, tasks': map<Key, Task>)
    requires Kept(s) && SameTasks(s.tasks, tasks')
    ensures Keeps(s, s.(tasks := tasks'))
  {
    SameTaskFits(s, tasks');
    SameTaskKeys(s, tasks');
    if Tidy(s) {
      SameTaskPins(s, tasks');
    }
  }

  lemma SameTaskPins(s: State, tasks': map<Key, Task>)
    requires Tidy(s) && SameTasks(s.tasks, tasks')
    ensures PinsOk(s.pinned, s.materials, s.artifacts, tasks', s.claims)
    ensures StraysOk(s.strayed, s.readers, s.artifacts, tasks', s.claims)
    ensures CopiesOk(s.created, s.artifacts, tasks', s.deletions)
  {
    hide Made;
  }

  lemma SameTaskFits(s: State, tasks': map<Key, Task>)
    requires TasksOk(s.tasks, s.deletions, s.claims, s.used, s.artifacts) && TaskIdsOk(s.tasks, s.deletions)
    requires SameTasks(s.tasks, tasks')
    ensures TasksOk(tasks', s.deletions, s.claims, s.used, s.artifacts) && TaskIdsOk(tasks', s.deletions)
  {
  }

  lemma SameTaskKeys(s: State, tasks': map<Key, Task>)
    requires OpenOk(s.records, s.claims, s.artifacts, s.tasks, s.lateDeletes, s.deletions)
    requires RowsOk(s.artifacts, s.claims, s.tasks, s.objects, s.lateDeletes, s.deletions)
    requires SameTasks(s.tasks, tasks')
    ensures OpenOk(s.records, s.claims, s.artifacts, tasks', s.lateDeletes, s.deletions)
    ensures RowsOk(s.artifacts, s.claims, tasks', s.objects, s.lateDeletes, s.deletions)
  {
  }

  /** Both facts that an object is under threat only where its row is given up. */
  ghost predicate ThreatsOk(s: State, lateDeletes: set<Key>, deletions: map<Id, Deletion>) {
    && OpenOk(s.records, s.claims, s.artifacts, s.tasks, lateDeletes, deletions)
    && RowsOk(s.artifacts, s.claims, s.tasks, s.objects, lateDeletes, deletions)
  }

  lemma ThreatsFollow(s: State, lateDeletes': set<Key>, deletions': map<Id, Deletion>)
    requires ThreatsOk(s, s.lateDeletes, s.deletions)
    requires forall k :: Threat(lateDeletes', deletions', k) ==> Threat(s.lateDeletes, s.deletions, k) || k in s.tasks
    ensures ThreatsOk(s, lateDeletes', deletions')
  {
  }

  lemma CopyTask(s: State, worker: Id, key: Key, erasure: Erasure)
    requires Kept(s) && key in s.tasks
    ensures Keeps(s, s.(deletions := s.deletions[worker := Deletion(key, s.tasks[key], erasure)]))
  {
    var deletions' := s.deletions[worker := Deletion(key, s.tasks[key], erasure)];
    ThreatsFollow(s, s.lateDeletes, deletions');
    CopyTaskIds(s, worker, key, erasure);
    if Tidy(s) {
      CopyTidy(s, worker, key, erasure);
    }
    hide OpenOk, RowsOk, TasksOk, TaskIdsOk, PinsOk, StraysOk, CopiesOk, MadeOk, HistoryOk, CompletedOk, AnswersOk,
         ToldOk, RecordsOk, AttemptsOk, ObjectsOk;
  }

  lemma CopyTidy(s: State, worker: Id, key: Key, erasure: Erasure)
    requires CopiesOk(s.created, s.artifacts, s.tasks, s.deletions) && key in s.tasks
    ensures CopiesOk(s.created, s.artifacts, s.tasks, s.deletions[worker := Deletion(key, s.tasks[key], erasure)])
  {
    hide Made;
  }

  lemma CopyTaskIds(s: State, worker: Id, key: Key, erasure: Erasure)
    requires TasksOk(s.tasks, s.deletions, s.claims, s.used, s.artifacts) && TaskIdsOk(s.tasks, s.deletions)
    requires key in s.tasks
    ensures TasksOk(s.tasks, s.deletions[worker := Deletion(key, s.tasks[key], erasure)], s.claims, s.used, s.artifacts)
    ensures TaskIdsOk(s.tasks, s.deletions[worker := Deletion(key, s.tasks[key], erasure)])
  {
  }

  lemma MarkedIsSame(tasks: map<Key, Task>, key: Key, task: Task)
    requires key in tasks && task.id == tasks[key].id && task.artifact == tasks[key].artifact
    ensures SameTasks(tasks, tasks[key := task])
  {
  }

  lemma RetriedIsSame(tasks: map<Key, Task>, id: Id, next: Time)
    ensures SameTasks(tasks, RetryTask(tasks, id, next))
  {
  }

  lemma MarkRunningKeeps(s: State, worker: Id, key: Key, now: Time)
    requires Kept(s)
    ensures Keeps(s, MarkRunning(s, worker, key, now))
  {
    hide Kept, Tidy;
    if worker !in s.deletions && Due(s, key, now) {
      var task := s.tasks[key].(running := true, attempt := s.tasks[key].attempt + 1);
      MarkedIsSame(s.tasks, key, task);
      SameTasksKeep(s, s.tasks[key := task]);
      CopyTask(s.(tasks := s.tasks[key := task]), worker, key, Marked);
    }
  }

  lemma CopyMovesFits(s: State, worker: Id, erasure: Erasure)
    requires TasksOk(s.tasks, s.deletions, s.claims, s.used, s.artifacts) && TaskIdsOk(s.tasks, s.deletions)
    requires worker in s.deletions
    ensures var deletions' := s.deletions[worker := s.deletions[worker].(erasure := erasure)];
            && TasksOk(s.tasks, deletions', s.claims, s.used, s.artifacts) && TaskIdsOk(s.tasks, deletions')
            && (CopiesOk(s.created, s.artifacts, s.tasks, s.deletions) ==>
                  CopiesOk(s.created, s.artifacts, s.tasks, deletions'))
  {
    hide Made;
  }

  lemma CopyMoves(s: State, worker: Id, erasure: Erasure)
    requires Kept(s) && worker in s.deletions && erasure != Marked
    ensures Keeps(s, s.(deletions := s.deletions[worker := s.deletions[worker].(erasure := erasure)]))
  {
    var deletions' := s.deletions[worker := s.deletions[worker].(erasure := erasure)];
    CopyMovesThreat(s.lateDeletes, s.deletions, worker, erasure);
    ThreatsFollow(s, s.lateDeletes, deletions');
    CopyMovesFits(s, worker, erasure);
    hide OpenOk, RowsOk, TasksOk, TaskIdsOk, PinsOk, StraysOk, CopiesOk, MadeOk, HistoryOk, CompletedOk, AnswersOk,
         ToldOk, RecordsOk, AttemptsOk, ObjectsOk;
  }

  lemma CopyMovesThreat(lateDeletes: set<Key>, deletions: map<Id, Deletion>, worker: Id, erasure: Erasure)
    requires worker in deletions && erasure != Marked
    ensures forall k :: Threat(lateDeletes, deletions[worker := deletions[worker].(erasure := erasure)], k)
                        ==> Threat(lateDeletes, deletions, k)
  {
  }

  /** Removing an object that is under threat. */
  lemma EraseKeeps(s: State, key: Key)
    requires Kept(s) && Threat(s.lateDeletes, s.deletions, key)
    ensures Keeps(s, s.(objects := s.objects - {key}))
  {
    EraseRows(s, key);
    EraseAttempts(s, key);
  }

  lemma EraseRows(s: State, key: Key)
    requires RowsOk(s.artifacts, s.claims, s.tasks, s.objects, s.lateDeletes, s.deletions)
    requires ObjectsOk(s.objects, s.latePuts, s.lateDeletes, s.claims) && Threat(s.lateDeletes, s.deletions, key)
    ensures RowsOk(s.artifacts, s.claims, s.tasks, s.objects - {key}, s.lateDeletes, s.deletions)
    ensures ObjectsOk(s.objects - {key}, s.latePuts, s.lateDeletes, s.claims)
  {
  }

  lemma EraseAttempts(s: State, key: Key)
    requires OpenOk(s.records, s.claims, s.artifacts, s.tasks, s.lateDeletes, s.deletions)
    requires AttemptsOk(s.attempts, s.records, s.claims, s.objects) && Threat(s.lateDeletes, s.deletions, key)
    ensures AttemptsOk(s.attempts, s.records, s.claims, s.objects - {key})
  {
  }

  lemma EraseSucceedsKeeps(s: State, worker: Id)
    requires Kept(s)
    ensures Keeps(s, EraseSucceeds(s, worker))
  {
    hide Kept, Tidy;
    if worker in s.deletions && s.deletions[worker].erasure == Marked {
      EraseKeeps(s, s.deletions[worker].key);
      CopyMoves(s.(objects := s.objects - {s.deletions[worker].key}), worker, Erased);
    }
  }

  lemma LoseDelete(s: State, worker: Id)
    requires Kept(s) && worker in s.deletions && s.deletions[worker].erasure == Marked
    ensures Keeps(s, s.(lateDeletes := s.lateDeletes + {s.deletions[worker].key}))
  {
    ThreatsFollow(s, s.lateDeletes + {s.deletions[worker].key}, s.deletions);
  }

  lemma EraseUnknown(s: State, worker: Id, late: bool)
    requires Kept(s) && worker in s.deletions && s.deletions[worker].erasure == Marked
    ensures Keeps(s, s.(lateDeletes := if late then s.lateDeletes + {s.deletions[worker].key} else s.lateDeletes,
                   deletions := s.deletions[worker := s.deletions[worker].(erasure := Failed)]))
  {
    hide Kept, Tidy;
    if late {
      LoseDelete(s, worker);
      CopyMoves(s.(lateDeletes := s.lateDeletes + {s.deletions[worker].key}), worker, Failed);
    } else {
      CopyMoves(s, worker, Failed);
    }
  }

  lemma EraseFailsKeeps(s: State, worker: Id, applied: bool, late: bool)
    requires Kept(s)
    ensures Keeps(s, EraseFails(s, worker, applied, late))
  {
    hide Kept, Tidy;
    if worker in s.deletions && s.deletions[worker].erasure == Marked {
      if applied {
        EraseKeeps(s, s.deletions[worker].key);
        EraseUnknown(s.(objects := s.objects - {s.deletions[worker].key}), worker, late);
      } else {
        EraseUnknown(s, worker, late);
      }
    }
  }

  lemma LateDeleteKeeps(s: State, key: Key)
    requires Kept(s)
    ensures Keeps(s, LateDelete(s, key))
  {
    if key in s.lateDeletes {
      EraseKeeps(s, key);
    }
  }

  lemma FewerCopies(s: State, worker: Id)
    requires TasksOk(s.tasks, s.deletions, s.claims, s.used, s.artifacts) && TaskIdsOk(s.tasks, s.deletions)
    ensures var deletions' := s.deletions - {worker};
            && TasksOk(s.tasks, deletions', s.claims, s.used, s.artifacts) && TaskIdsOk(s.tasks, deletions')
            && (CopiesOk(s.created, s.artifacts, s.tasks, s.deletions) ==>
                  CopiesOk(s.created, s.artifacts, s.tasks, deletions'))
    ensures forall k :: Threat(s.lateDeletes, s.deletions - {worker}, k) ==> Threat(s.lateDeletes, s.deletions, k)
  {
    hide Made;
  }

  lemma CrashDeletionKeeps(s: State, worker: Id)
    requires Kept(s)
    ensures Keeps(s, CrashDeletion(s, worker))
  {
    FewerCopies(s, worker);
    ThreatsFollow(s, s.lateDeletes, s.deletions - {worker});
    hide OpenOk, RowsOk, TasksOk, TaskIdsOk, PinsOk, StraysOk, CopiesOk, MadeOk, HistoryOk, CompletedOk, AnswersOk,
         ToldOk, RecordsOk, AttemptsOk, ObjectsOk;
  }

  lemma RetryKeeps(s: State, worker: Id, now: Time)
    requires Kept(s)
    ensures Keeps(s, Retry(s, worker, now))
  {
    hide Kept, Tidy, RetryTask, RetryDelay, SameTasks;
    if worker in s.deletions && s.deletions[worker].erasure != Marked {
      var task := s.deletions[worker].task;
      var tasks' := RetryTask(s.tasks, task.id, now + RetryDelay(task.attempt));
      RetriedIsSame(s.tasks, task.id, now + RetryDelay(task.attempt));
      SameTasksKeep(s, tasks');
      CrashDeletionKeeps(s.(tasks := tasks'), worker);
    }
  }

  lemma RecoverTasksKeeps(s: State)
    requires Kept(s)
    ensures Keeps(s, RecoverTasks(s))
  {
    hide Kept, Tidy;
    SameTasksKeep(s, RecoverTasks(s).tasks);
  }

  lemma FinishDeletionKeeps(s: State, worker: Id)
    requires Kept(s)
    ensures Keeps(s, FinishDeletion(s, worker))
  {
    hide Kept, Tidy;
    if worker in s.deletions && s.deletions[worker].erasure == Erased && !DeleteRefused(s, worker) {
      RemoveRowKeeps(s, worker);
      CrashDeletionKeeps(FinishDeletion(s, worker).(deletions := s.deletions), worker);
    }
  }

  lemma RemoveRowKept(s: State, worker: Id)
    requires Kept(s) && worker in s.deletions
    ensures var task := s.deletions[worker].task;
            Kept(s.(artifacts := RowsWithout(s, task), tasks := DeleteTask(s.tasks, task.id)))
  {
    RemoveRowRows(s, worker);
    RemoveRowTasks(s, worker);
    hide OpenOk, RowsOk, TasksOk, TaskIdsOk, RecordsOk, AttemptsOk, ObjectsOk, DeleteTask, RowsWithout;
  }

  /** The row and the task go together. */
  lemma RemoveRowKeeps(s: State, worker: Id)
    requires Kept(s) && worker in s.deletions && !DeleteRefused(s, worker)
    ensures var task := s.deletions[worker].task;
            Keeps(s, s.(artifacts := RowsWithout(s, task), tasks := DeleteTask(s.tasks, task.id)))
  {
    hide DeleteTask, DeleteRefused, RowsWithout, OpenOk, RowsOk, TasksOk, TaskIdsOk, PinsOk, StraysOk, CopiesOk, MadeOk,
         HistoryOk, CompletedOk, AnswersOk, ToldOk, RecordsOk, AttemptsOk, ObjectsOk;
    RemoveRowKept(s, worker);
    if Tidy(s) {
      RemoveRowPins(s, worker);
      RemoveRowStrays(s, worker);
      RemoveRowCopies(s, worker);
    }
  }

  function RowsWithout(s: State, task: Task): map<Id, Artifact> {
    if task.artifact.Some? then s.artifacts - {task.artifact.value} else s.artifacts
  }

  lemma RemoveRowPins(s: State, worker: Id)
    requires PinsOk(s.pinned, s.materials, s.artifacts, s.tasks, s.claims)
    requires worker in s.deletions && !DeleteRefused(s, worker)
    ensures var task := s.deletions[worker].task;
            PinsOk(s.pinned, s.materials, RowsWithout(s, task), DeleteTask(s.tasks, task.id), s.claims)
  {
  }

  /** The row of a reference that strayed stays, and so does its task. */
  lemma RemoveRowStrays(s: State, worker: Id)
    requires RowsOk(s.artifacts, s.claims, s.tasks, s.objects, s.lateDeletes, s.deletions)
    requires TasksOk(s.tasks, s.deletions, s.claims, s.used, s.artifacts) && TaskIdsOk(s.tasks, s.deletions)
    requires StraysOk(s.strayed, s.readers, s.artifacts, s.tasks, s.claims)
    requires worker in s.deletions && !DeleteRefused(s, worker)
    ensures var task := s.deletions[worker].task;
            StraysOk(s.strayed, s.readers, RowsWithout(s, task), DeleteTask(s.tasks, task.id), s.claims)
  {
    var task := s.deletions[worker].task;
    forall id | id in s.strayed
      ensures id in RowsWithout(s, task) && s.artifacts[id].storageKey in DeleteTask(s.tasks, task.id)
    {
      var key := s.artifacts[id].storageKey;
      assert key.id == id && s.tasks[key].artifact == Some(id);
    }
    hide RowsOk, TasksOk, TaskIdsOk;
  }

  lemma RemoveRowCopies(s: State, worker: Id)
    requires TasksOk(s.tasks, s.deletions, s.claims, s.used, s.artifacts) && TaskIdsOk(s.tasks, s.deletions)
    requires CopiesOk(s.created, s.artifacts, s.tasks, s.deletions) && worker in s.deletions
    requires MadeOk(s.records, s.claims, s.created, s.artifacts)
    ensures var task := s.deletions[worker].task;
            var artifacts', tasks' := RowsWithout(s, task), DeleteTask(s.tasks, task.id);
            CopiesOk(s.created, artifacts', tasks', s.deletions) && MadeOk(s.records, s.claims, s.created, artifacts')
  {
    hide Made;
  }

  lemma RemoveRowRows(s: State, worker: Id)
    requires OpenOk(s.records, s.claims, s.artifacts, s.tasks, s.lateDeletes, s.deletions)
    requires RowsOk(s.artifacts, s.claims, s.tasks, s.objects, s.lateDeletes, s.deletions)
    requires TasksOk(s.tasks, s.deletions, s.claims, s.used, s.artifacts) && TaskIdsOk(s.tasks, s.deletions)
    requires worker in s.deletions
    ensures var artifacts' := RowsWithout(s, s.deletions[worker].task);
            var tasks' := DeleteTask(s.tasks, s.deletions[worker].task.id);
            && OpenOk(s.records, s.claims, artifacts', tasks', s.lateDeletes, s.deletions)
            && RowsOk(artifacts', s.claims, tasks', s.objects, s.lateDeletes, s.deletions)
  {
  }

  lemma RemoveRowTasks(s: State, worker: Id)
    requires TasksOk(s.tasks, s.deletions, s.claims, s.used, s.artifacts) && TaskIdsOk(s.tasks, s.deletions)
    requires worker in s.deletions
    ensures var artifacts' := RowsWithout(s, s.deletions[worker].task);
            var tasks' := DeleteTask(s.tasks, s.deletions[worker].task.id);
            TasksOk(tasks', s.deletions, s.claims, s.used, artifacts') && TaskIdsOk(tasks', s.deletions)
  {
  }

  // ------------------------------------------------------------------------------------ claim

  /** A stored screenshot response decodes to the very artifact that was created. */
  lemma ReplayedAnswer(records: Records, claims: Claims, created: seq<Artifact>, scope: Scope)
    requires RecordsOk(records, claims) && CompletedOk(records, created) && HistoryOk(claims, created)
    requires scope in records && records[scope].status == Completed
    ensures scope.path.ArtifactUpload? <==> ReplayAnswer(scope, records[scope]).Some?
    ensures scope.path.ArtifactUpload? ==>
              var answer := ReplayAnswer(scope, records[scope]).value;
              && answer.artifact in created && answer.artifact.id == answer.resource
              && records[scope].resource == Some(answer.resource) && answer.scope == scope
  {
    var r := records[scope];
    assert BodyOk(created, scope, r);
    if scope.path.ArtifactUpload? {
      var i :| 0 <= i < |created| && created[i].id == r.resource.value
               && r.body.value == ArtifactBody(EncodeArtifact(created[i]));
      ArtifactReplay(created[i]);
    }
  }

  lemma ReplayedKeeps(s: State, scope: Scope)
    requires Kept(s) && scope in s.records && s.records[scope].status == Completed
    ensures Keeps(s, Replayed(s, scope, s.records[scope]))
  {
    if Tidy(s) {
      ReplayedAnswer(s.records, s.claims, s.created, scope);
      ReplayedTold(s, scope);
    }
    hide OpenOk, RowsOk, TasksOk, TaskIdsOk, PinsOk, StraysOk, CopiesOk, MadeOk, HistoryOk, CompletedOk, RecordsOk,
         AttemptsOk, ObjectsOk;
  }

  lemma ReplayedTold(s: State, scope: Scope)
    requires ToldOk(s.told, s.created) && CompletedOk(s.records, s.created)
    requires scope in s.records && s.records[scope].status == Completed
    ensures ToldOk(s.told + MaterialAnswer(scope, s.records[scope]), s.created)
  {
    assert BodyOk(s.created, scope, s.records[scope]);
    hide CompletedOk, Made;
  }

  lemma TakeOverSettles(records: Records, claims: Claims, scope: Scope, candidate: Id, now: Time)
    requires RecordsOk(records, claims) && LeaseOver(records, scope, now)
    ensures Execute(records, TakeOverLease(scope, Some(candidate), now))
            == records[scope := Execute(records, TakeOverLease(scope, Some(candidate), now))[scope]]
    ensures Settles(records[scope], Execute(records, TakeOverLease(scope, Some(candidate), now))[scope])
  {
  }

  lemma SettleRecord(s: State, scope: Scope, r': Record<Upload, Body>)
    requires Kept(s) && scope in s.records && Settles(s.records[scope], r') && r'.status == InProgress
    ensures Keeps(s, s.(records := s.records[scope := r']))
  {
    SettleRecords(s.records, s.claims, scope, r');
    FewerOpen(s, s.records[scope := r']);
    if Tidy(s) {
      SettleTidy(s, scope, r');
    }
  }

  lemma NewAttempt(s: State, t: Id, scope: Scope)
    requires Kept(s) && scope in s.records && s.records[scope].resource.Some?
    ensures var r := s.records[scope];
            Keeps(s, s.(attempts := s.attempts[t := Attempt(Putting, scope, r.hash, r.resource.value)]))
  {
  }

  lemma TakeOverKeeps(s: State, t: Id, scope: Scope, candidate: Id, now: Time)
    requires Kept(s) && LeaseOver(s.records, scope, now)
    ensures var records := Execute(s.records, TakeOverLease(scope, Some(candidate), now));
            && scope in records && records[scope].resource.Some?
            && Keeps(s, s.(records := records,
                      attempts := s.attempts[
                        t := Attempt(Putting, scope, records[scope].hash, records[scope].resource.value)]))
  {
    var records := Execute(s.records, TakeOverLease(scope, Some(candidate), now));
    TakeOverSettles(s.records, s.claims, scope, candidate, now);
    SettleRecord(s, scope, records[scope]);
    NewAttempt(s.(records := records), t, scope);
  }

  /** The row a first claim inserts. */
  function FirstRecord(upload: Upload, candidate: Id, now: Time): Record<Upload, Body> {
    ToRow(NewInProgress(upload, Some(candidate), now))
  }

  lemma StartRecords(s: State, scope: Scope, upload: Upload, r: Id, now: Time)
    requires RecordsOk(s.records, s.claims) && r !in s.claims && scope !in s.records && IsUploadPath(scope.path)
    ensures var row := FirstRecord(upload, r, now);
            var claims := s.claims[r := FirstClaim(scope, upload, row.createdAt)];
            && RecordsOk(s.records[scope := row], claims)
            && forall q :: Open(s.records[scope := row], claims, q) ==> q == r || Open(s.records, s.claims, q)
  {
  }

  lemma StartUnused(s: State, r: Id)
    requires Kept(s) && r !in s.used
    ensures r !in s.claims && r !in s.artifacts
    ensures Tidy(s) ==> !Made(s.created, r)
    ensures forall k :: k in s.tasks || Threat(s.lateDeletes, s.deletions, k) ==> k.id != r
  {
  }

  lemma StartOpen(s: State, records: Records, claims: Claims, r: Id, claim: FirstClaim)
    requires OpenOk(s.records, s.claims, s.artifacts, s.tasks, s.lateDeletes, s.deletions)
    requires AttemptsOk(s.attempts, s.records, s.claims, s.objects)
    requires r !in s.claims && claims == s.claims[r := claim]
    requires r !in s.artifacts
    requires forall k :: k in s.tasks || Threat(s.lateDeletes, s.deletions, k) ==> k.id != r
    requires forall q :: Open(records, claims, q) ==> q == r || Open(s.records, s.claims, q)
    ensures OpenOk(records, claims, s.artifacts, s.tasks, s.lateDeletes, s.deletions)
    ensures AttemptsOk(s.attempts, records, claims, s.objects)
  {
  }

  lemma StartRows(s: State, r: Id, claim: FirstClaim)
    requires RowsOk(s.artifacts, s.claims, s.tasks, s.objects, s.lateDeletes, s.deletions)
    requires ObjectsOk(s.objects, s.latePuts, s.lateDeletes, s.claims)
    requires TasksOk(s.tasks, s.deletions, s.claims, s.used, s.artifacts) && r !in s.claims
    ensures RowsOk(s.artifacts, s.claims[r := claim], s.tasks, s.objects, s.lateDeletes, s.deletions)
    ensures ObjectsOk(s.objects, s.latePuts, s.lateDeletes, s.claims[r := claim])
    ensures TasksOk(s.tasks, s.deletions, s.claims[r := claim], s.used + {r}, s.artifacts)
  {
  }

  lemma StartTidy(s: State, scope: Scope, row: Record<Upload, Body>, r: Id, claim: FirstClaim)
    requires Tidy(s) && r !in s.claims && !Made(s.created, r) && row.status == InProgress
    requires forall q :: Open(s.records[scope := row], s.claims[r := claim], q) ==> q == r || Open(s.records, s.claims, q)
    ensures Tidy(s.(records := s.records[scope := row], used := s.used + {r}, claims := s.claims[r := claim]))
  {
    hide Made, BodyOk, RowFits, Artifact.Valid;
  }

  lemma StartKeeps(s: State, scope: Scope, upload: Upload, r: Id, now: Time)
    requires Kept(s) && r !in s.used && scope !in s.records && IsUploadPath(scope.path)
    ensures var row := FirstRecord(upload, r, now);
            Keeps(s, s.(records := s.records[scope := row], used := s.used + {r},
                        claims := s.claims[r := FirstClaim(scope, upload, row.createdAt)]))
  {
    var row := FirstRecord(upload, r, now);
    var claim := FirstClaim(scope, upload, row.createdAt);
    StartUnused(s, r);
    StartRecords(s, scope, upload, r, now);
    StartOpen(s, s.records[scope := row], s.claims[r := claim], r, claim);
    StartRows(s, r, claim);
    if Tidy(s) {
      StartTidy(s, scope, row, r, claim);
    }
    hide Tidy, OpenOk, RowsOk, TasksOk, TaskIdsOk, RecordsOk, AttemptsOk, ObjectsOk;
  }

  /** The four ways an upload can begin. */
  lemma BeginCases(s: State, t: Id, scope: Scope, upload: Upload, r: Id, now: Time)
    requires ValidTable(s.records)
    ensures var s' := BeginUpload(s, t, scope, upload, r, now);
            var used := s.(used := s.used + {r});
            if scope !in s.records then
              var row := FirstRecord(upload, r, now);
              s' == used.(records := s.records[scope := row],
                          claims := s.claims[r := FirstClaim(scope, upload, row.createdAt)],
                          attempts := s.attempts[t := Attempt(Putting, scope, upload, r)])
            else if s.records[scope].hash == upload && s.records[scope].status == Completed then
              s' == Replayed(used, scope, s.records[scope])
            else if s.records[scope].hash == upload && LeaseOver(s.records, scope, now) then
              var records := Execute(s.records, TakeOverLease(scope, Some(r), now));
              && scope in records && records[scope].hash == upload && records[scope].resource.Some?
              && s' == used.(records := records,
                             attempts := s.attempts[t := Attempt(Putting, scope, upload, records[scope].resource.value)])
            else s' == used
  {
    if scope in s.records {
      TakeOverMatchesSql(s.records, scope, upload, now);
    }
  }

  lemma BeginUploadKeeps(s: State, t: Id, scope: Scope, upload: Upload, candidate: Id, now: Time)
    requires Kept(s) && candidate !in s.used && IsUploadPath(scope.path)
    ensures Keeps(s, BeginUpload(s, t, scope, upload, candidate, now))
  {
    assert ValidTable(s.records);
    hide Kept, Tidy, BeginUpload, Execute, LeaseOver, Replayed, FirstRecord, ValidTable;
    BeginCases(s, t, scope, upload, candidate, now);
    MoreUsed(s, candidate);
    var used := s.(used := s.used + {candidate});
    if scope !in s.records {
      StartKeeps(s, scope, upload, candidate, now);
      StartedRecord(upload, candidate, now);
      NewAttempt(BeginUpload(s, t, scope, upload, candidate, now).(attempts := s.attempts), t, scope);
    } else if s.records[scope].hash == upload && s.records[scope].status == Completed {
      ReplayedKeeps(used, scope);
    } else if s.records[scope].hash == upload && LeaseOver(s.records, scope, now) {
      TakeOverKeeps(used, t, scope, candidate, now);
    }
  }

  lemma StartedRecord(upload: Upload, candidate: Id, now: Time)
    ensures FirstRecord(upload, candidate, now).hash == upload
    ensures FirstRecord(upload, candidate, now).resource == Some(candidate)
  {
  }

  // ----------------------------------------------------------------------------------- finish

  /** The attempt may insert its row: its object is stored and its own claim is the one still unanswered. */
  predicate MayInsert(s: State, t: Id) {
    && t in s.attempts && s.attempts[t].phase == Stored
    && s.attempts[t].scope in s.records
    && s.records[s.attempts[t].scope].status == InProgress
    && s.records[s.attempts[t].scope].resource == Some(s.attempts[t].resource)
    && s.attempts[t].resource in s.claims && Fits(s.claims[s.attempts[t].resource])
  }

  predicate RowOf(row: Artifact, a: Attempt) {
    && row.Valid() && row.id == a.resource && row.owner == a.scope.actor
    && row.sha256 == a.upload.picture.sha256 && row.byteSize == |a.upload.picture.bytes|
    && row.width == a.upload.picture.width && row.height == a.upload.picture.height
    && row.capturedAt == Micro(a.upload.capturedAt)
    && (row.purpose == RequestScreenshot ==> a.scope.path.ArtifactUpload?)
  }

  /** The object under this key stays in storage, or its task takes the row along when it goes. */
  ghost predicate Secure(s: State, key: Key) {
    if key in s.tasks then s.tasks[key].artifact.Some?
    else key in s.objects && !Threat(s.lateDeletes, s.deletions, key)
  }

  lemma MayInsertIsOpen(s: State, t: Id)
    requires Kept(s) && MayInsert(s, t)
    ensures var a := s.attempts[t]; var key := KeyOf(a.scope, a.resource);
            && Open(s.records, s.claims, a.resource) && a.resource in s.claims && Fits(s.claims[a.resource])
            && s.claims[a.resource].scope == a.scope && s.claims[a.resource].upload == a.upload
            && s.records[a.scope].hash == a.upload
            && a.resource !in s.artifacts && (Tidy(s) ==> !Made(s.created, a.resource))
            && key !in s.tasks && !Threat(s.lateDeletes, s.deletions, key) && key in s.objects
  {
    assert AttemptOk(s.attempts[t], s.records, s.claims, s.objects);
  }

  lemma InsertRows(s: State, row: Artifact)
    requires RowsOk(s.artifacts, s.claims, s.tasks, s.objects, s.lateDeletes, s.deletions)
    requires row.id in s.claims && RowFits(row, s.claims[row.id]) && Secure(s, row.storageKey)
    ensures RowsOk(s.artifacts[row.id := row], s.claims, s.tasks, s.objects, s.lateDeletes, s.deletions)
  {
  }

  lemma MadeGrows(created: seq<Artifact>, row: Artifact)
    ensures forall r :: Made(created + [row], r) <==> Made(created, r) || r == row.id
  {
    forall r ensures Made(created + [row], r) <==> Made(created, r) || r == row.id {
      if Made(created, r) {
        var i :| 0 <= i < |created| && created[i].id == r;
        assert (created + [row])[i].id == r;
      }
      if r == row.id {
        assert (created + [row])[|created|].id == r;
      }
    }
  }

  lemma InsertOpen(s: State, records': Records, row: Artifact)
    requires OpenOk(s.records, s.claims, s.artifacts, s.tasks, s.lateDeletes, s.deletions)
    requires forall r :: Open(records', s.claims, r) ==> Open(s.records, s.claims, r) && r != row.id
    ensures OpenOk(records', s.claims, s.artifacts[row.id := row], s.tasks, s.lateDeletes, s.deletions)
  {
  }

  lemma InsertTasks(s: State, row: Artifact)
    requires TasksOk(s.tasks, s.deletions, s.claims, s.used, s.artifacts)
    requires row.id in s.claims && Secure(s, KeyFor(s.claims, row.id))
    ensures TasksOk(s.tasks, s.deletions, s.claims, s.used, s.artifacts[row.id := row])
  {
  }

  /** A row may be inserted where its object is secure, whichever claim the record is of. */
  lemma InsertKept(s: State, t: Id, row: Artifact, body: Body, now: Time)
    requires Kept(s) && t in s.attempts && RowOf(row, s.attempts[t])
    requires var a := s.attempts[t];
             && a.scope in s.records && s.records[a.scope].status == InProgress
             && a.resource in s.claims && Fits(s.claims[a.resource]) && Secure(s, KeyOf(a.scope, a.resource))
    ensures var a := s.attempts[t];
            Kept(s.(records := Execute(s.records, Complete(a.scope, 201, body, now)), attempts := s.attempts - {t},
                    artifacts := s.artifacts[row.id := row]))
  {
    var a := s.attempts[t];
    assert AttemptOk(a, s.records, s.claims, s.objects);
    CompleteSettles(s.records, s.claims, a.scope, 201, body, now);
    var r' := Execute(s.records, Complete(a.scope, 201, body, now))[a.scope];
    SettleRecords(s.records, s.claims, a.scope, r');
    InsertOpen(s, s.records[a.scope := r'], row);
    FewerOpen(s, s.records[a.scope := r']);
    FewerAttempts(s.attempts, t, s.records[a.scope := r'], s.claims, s.objects);
    InsertRows(s, row);
    InsertTasks(s, row);
    hide OpenOk, RowsOk, TasksOk, TaskIdsOk, RecordsOk, AttemptsOk, ObjectsOk, Secure, AttemptOk, Execute, Fits;
  }

  lemma InsertHistory(s: State, row: Artifact)
    requires HistoryOk(s.claims, s.created) && !Made(s.created, row.id)
    requires row.id in s.claims && row.Valid() && RowFits(row, s.claims[row.id])
    ensures HistoryOk(s.claims, s.created + [row])
  {
  }

  lemma BodyGrows(created: seq<Artifact>, row: Artifact, scope: Scope, r: Record<Upload, Body>)
    requires BodyOk(created, scope, r)
    ensures BodyOk(created + [row], scope, r)
  {
    MadeGrows(created, row);
    if scope.path.ArtifactUpload? {
      var i :| 0 <= i < |created| && created[i].id == r.resource.value
               && r.body.value == ArtifactBody(EncodeArtifact(created[i]));
      assert (created + [row])[i] == created[i];
    }
  }

  lemma InsertCompleted(s: State, scope: Scope, r': Record<Upload, Body>, row: Artifact)
    requires CompletedOk(s.records, s.created) && BodyOk(s.created + [row], scope, r')
    ensures CompletedOk(s.records[scope := r'], s.created + [row])
  {
    forall other | other in s.records && other != scope && s.records[other].status == Completed
      ensures BodyOk(s.created + [row], other, s.records[other])
    {
      BodyGrows(s.created, row, other, s.records[other]);
    }
  }

  lemma InsertAnswers(s: State, row: Artifact)
    requires AnswersOk(s.answers, s.created, s.claims) && ToldOk(s.told, s.created)
    ensures AnswersOk(s.answers, s.created + [row], s.claims) && ToldOk(s.told, s.created + [row])
  {
    MadeGrows(s.created, row);
    hide Made;
  }

  lemma InsertPins(s: State, row: Artifact)
    requires PinsOk(s.pinned, s.materials, s.artifacts, s.tasks, s.claims)
    requires StraysOk(s.strayed, s.readers, s.artifacts, s.tasks, s.claims)
    requires row.id !in s.artifacts && row.storageKey !in s.tasks
    ensures PinsOk(s.pinned, s.materials, s.artifacts[row.id := row], s.tasks, s.claims)
    ensures StraysOk(s.strayed, s.readers, s.artifacts[row.id := row], s.tasks, s.claims)
  {
  }

  lemma InsertMade(s: State, records': Records, row: Artifact)
    requires MadeOk(s.records, s.claims, s.created, s.artifacts)
    requires CopiesOk(s.created, s.artifacts, s.tasks, s.deletions) && !Made(s.created, row.id)
    requires forall r :: Open(records', s.claims, r) ==> Open(s.records, s.claims, r) && r != row.id
    ensures MadeOk(records', s.claims, s.created + [row], s.artifacts[row.id := row])
    ensures CopiesOk(s.created + [row], s.artifacts[row.id := row], s.tasks, s.deletions)
  {
    MadeGrows(s.created, row);
    hide Made;
  }

  lemma InsertTidy(s: State, t: Id, row: Artifact, body: Body, now: Time)
    requires Kept(s) && Tidy(s) && MayInsert(s, t) && RowOf(row, s.attempts[t])
    requires var a := s.attempts[t];
             BodyOk(s.created + [row], a.scope, Execute(s.records, Complete(a.scope, 201, body, now))[a.scope])
    ensures var a := s.attempts[t];
            Tidy(s.(records := Execute(s.records, Complete(a.scope, 201, body, now)), attempts := s.attempts - {t},
                    artifacts := s.artifacts[row.id := row], created := s.created + [row]))
  {
    var a := s.attempts[t];
    MayInsertIsOpen(s, t);
    CompleteSettles(s.records, s.claims, a.scope, 201, body, now);
    var r' := Execute(s.records, Complete(a.scope, 201, body, now))[a.scope];
    SettleRecords(s.records, s.claims, a.scope, r');
    InsertMade(s, s.records[a.scope := r'], row);
    InsertHistory(s, row);
    InsertCompleted(s, a.scope, r', row);
    InsertAnswers(s, row);
    InsertPins(s, row);
    hide Kept, MadeOk, CopiesOk, HistoryOk, CompletedOk, AnswersOk, PinsOk, StraysOk, BodyOk, Made, Execute,
         Artifact.Valid;
  }

  /** The row, its reference and its completed record appear in one step. */
  lemma InsertKeeps(s: State, t: Id, row: Artifact, body: Body, now: Time)
    requires Kept(s) && MayInsert(s, t) && RowOf(row, s.attempts[t])
    requires var a := s.attempts[t];
             BodyOk(s.created + [row], a.scope, Execute(s.records, Complete(a.scope, 201, body, now))[a.scope])
    ensures var a := s.attempts[t];
            Keeps(s, s.(records := Execute(s.records, Complete(a.scope, 201, body, now)), attempts := s.attempts - {t},
                        artifacts := s.artifacts[row.id := row], created := s.created + [row]))
  {
    MayInsertIsOpen(s, t);
    InsertKept(s, t, row, body, now);
    if Tidy(s) {
      InsertTidy(s, t, row, body, now);
    }
    var a := s.attempts[t];
    var s1 := s.(records := Execute(s.records, Complete(a.scope, 201, body, now)), attempts := s.attempts - {t},
                 artifacts := s.artifacts[row.id := row]);
    SameKept(s1, s1.(created := s.created + [row]));
    hide Kept, Tidy, Execute, BodyOk;
  }

  lemma ScreenshotBodyOk(s: State, t: Id, row: Artifact, now: Time)
    requires MayInsert(s, t) && row.id == s.attempts[t].resource && s.attempts[t].scope.path.ArtifactUpload?
    ensures var a := s.attempts[t];
            BodyOk(s.created + [row], a.scope,
                   Execute(s.records, Complete(a.scope, 201, ArtifactBody(EncodeArtifact(row)), now))[a.scope])
  {
    assert (s.created + [row])[|s.created|] == row;
  }

  lemma NewAnswer(s: State, a: Attempt, row: Artifact)
    requires Kept(s) && row in s.created && row.id == a.resource
    requires a.resource in s.claims && s.claims[a.resource].scope == a.scope && a.scope.path.ArtifactUpload?
    ensures Keeps(s, s.(answers := s.answers + {Answer(a.scope, row.id, row)}))
  {
    hide RecordsOk, OpenOk, AttemptsOk, ObjectsOk, RowsOk, TasksOk, TaskIdsOk, MadeOk, CopiesOk, PinsOk, StraysOk,
         HistoryOk, CompletedOk, ToldOk;
  }

  lemma InsertScreenshotKeeps(s: State, t: Id, now: Time)
    requires Kept(s) && MayInsert(s, t) && s.attempts[t].scope.path.ArtifactUpload?
    ensures Keeps(s, FinishScreenshot(s, t, now))
  {
    hide Kept, Tidy, BodyOk, Artifact.Valid, EncodeArtifact;
    var a := s.attempts[t];
    var row := NewRow(a, RequestScreenshot, s.records[a.scope].createdAt);
    MayInsertIsOpen(s, t);
    if !row.Valid() || Taken(s.artifacts, row) {
      CrashUploadKeeps(s, t);
    } else {
      ScreenshotBodyOk(s, t, row, now);
      InsertKeeps(s, t, row, ArtifactBody(EncodeArtifact(row)), now);
      var s' := FinishScreenshot(s, t, now);
      assert (s.created + [row])[|s.created|] == row;
      NewAnswer(s'.(answers := s.answers), a, row);
    }
  }

  lemma FinishScreenshotKeeps(s: State, t: Id, now: Time)
    requires Kept(s)
    ensures Keeps(s, FinishScreenshot(s, t, now))
  {
    if t in s.attempts && s.attempts[t].phase == Stored && s.attempts[t].scope.path.ArtifactUpload? {
      var a := s.attempts[t];
      assert AttemptOk(a, s.records, s.claims, s.objects);
      CrashUploadKeeps(s, t);
      hide Kept, Tidy, NewRow, Artifact.Valid, Taken, Execute, Replayed, EncodeArtifact;
      if a.scope in s.records && s.records[a.scope].hash == a.upload {
        if s.records[a.scope].status == Completed {
          ReplayedKeeps(s.(attempts := s.attempts - {t}), a.scope);
        } else if s.records[a.scope].resource == Some(a.resource) {
          InsertScreenshotKeeps(s, t, now);
        }
      }
    } else {
      CrashUploadKeeps(s, t);
    }
  }

  // ------------------------------------------------------------------------- finish a material
  //
  // The last transaction of a material upload does not look at the record's artifact ID, so what it keeps
  // depends on the state it finds. `MaterialSafe` is the exact condition for the safety of the storage (see
  // `ArtifactAvailability`), `ClaimSafe` the exact condition for the whole invariant.

  predicate Registers(s: State, t: Id, outcome: MaterialOutcome, now: Time)
    requires t in s.attempts
  {
    var a := s.attempts[t];
    var row := NewRow(a, GuideMaterial, Micro(now));
    outcome.Register? && a.upload.fits && row.Valid() && !Taken(s.artifacts, row)
  }

  predicate Reserves(s: State, t: Id, outcome: MaterialOutcome)
    requires t in s.attempts
  {
    !outcome.Register? || !s.attempts[t].upload.fits
  }

  /** A registered image's object is secure; an object whose deletion is reserved has no row, or is reserved. */
  ghost predicate MaterialSafe(s: State, t: Id, outcome: MaterialOutcome, now: Time)
    requires MaterialProceeds(s, t)
  {
    var a := s.attempts[t];
    && (Registers(s, t, outcome, now) ==> Secure(s, KeyOf(a.scope, a.resource)))
    && (Reserves(s, t, outcome) ==> a.resource !in s.artifacts || KeyOf(a.scope, a.resource) in s.tasks)
  }

  predicate ClaimSafe(s: State, t: Id, outcome: MaterialOutcome, now: Time)
    requires MaterialProceeds(s, t)
  {
    var a := s.attempts[t];
    && (Registers(s, t, outcome, now) ==> s.records[a.scope].resource == Some(a.resource))
    && (Reserves(s, t, outcome) ==> a.resource !in s.artifacts || KeyOf(a.scope, a.resource) in s.tasks)
  }

  lemma MaterialAttempt(s: State, t: Id)
    requires Kept(s) && t in s.attempts
    ensures var a := s.attempts[t];
            && a.resource in s.claims && KeyFor(s.claims, a.resource) == KeyOf(a.scope, a.resource)
            && s.claims[a.resource].scope == a.scope && s.claims[a.resource].upload == a.upload
  {
    assert AttemptOk(s.attempts[t], s.records, s.claims, s.objects);
  }

  lemma RegisterKept(s: State, t: Id, outcome: MaterialOutcome, taskId: Id, now: Time)
    requires Kept(s) && MaterialProceeds(s, t) && Registers(s, t, outcome, now)
    requires Secure(s, KeyOf(s.attempts[t].scope, s.attempts[t].resource))
    ensures Kept(FinishMaterial(s, t, outcome, taskId, now))
  {
    hide Kept, Artifact.Valid, Taken, Secure, Execute;
    var a := s.attempts[t];
    var row := NewRow(a, GuideMaterial, Micro(now));
    MaterialAttempt(s, t);
    InsertKept(s, t, row, MaterialBody(row.id), now);
    var s1 := s.(records := Execute(s.records, Complete(a.scope, 201, MaterialBody(row.id), now)),
                 attempts := s.attempts - {t}, artifacts := s.artifacts[row.id := row]);
    MoreUsed(s1, taskId);
    SameKept(s1.(used := s.used + {taskId}), FinishMaterial(s, t, outcome, taskId, now));
  }

  lemma MaterialBodyOk(s: State, t: Id, row: Artifact, now: Time)
    requires MayInsert(s, t) && row.id == s.attempts[t].resource && s.attempts[t].scope.path.MaterialUpload?
    ensures var a := s.attempts[t];
            BodyOk(s.created + [row], a.scope, Execute(s.records, Complete(a.scope, 201, MaterialBody(row.id), now))[a.scope])
    ensures Made(s.created + [row], row.id)
  {
    MadeGrows(s.created, row);
  }

  lemma AbsentUnpinned(s: State, id: Id)
    requires Tidy(s) && id !in s.artifacts
    ensures id !in s.pinned && id !in s.materials
  {
  }

  lemma RegisterTidy(s: State, t: Id, outcome: MaterialOutcome, taskId: Id, now: Time)
    requires Inv(s) && MaterialProceeds(s, t) && Registers(s, t, outcome, now)
    requires s.records[s.attempts[t].scope].resource == Some(s.attempts[t].resource)
    ensures Tidy(FinishMaterial(s, t, outcome, taskId, now))
  {
    hide Kept, Tidy, Artifact.Valid, Taken, Execute, BodyOk, Made;
    var a := s.attempts[t];
    MaterialAttempt(s, t);
    var row := NewRow(a, GuideMaterial, Micro(now));
    assert MayInsert(s, t);
    MaterialBodyOk(s, t, row, now);
    InsertTidy(s, t, row, MaterialBody(row.id), now);
    MayInsertIsOpen(s, t);
    AbsentUnpinned(s, row.id);
    var s1 := s.(records := Execute(s.records, Complete(a.scope, 201, MaterialBody(row.id), now)),
                 attempts := s.attempts - {t}, artifacts := s.artifacts[row.id := row], created := s.created + [row]);
    JoinTidy(s1, row.id, FinishMaterial(s, t, outcome, taskId, now));
  }

  /** A new material joins its batch, and its caller is told. */
  lemma JoinTidy(s: State, id: Id, s': State)
    requires Tidy(s) && s' == s.(used := s'.used, materials := s.materials + {id}, told := s'.told)
    requires id in s.artifacts && s.artifacts[id].storageKey !in s.tasks && id !in s.pinned && Made(s.created, id)
    requires s.artifacts[id].purpose == GuideMaterial && id in s.claims && s.claims[id].scope.path.MaterialUpload?
    requires forall t :: t in s'.told ==> t in s.told || (t.resource == t.artifact == id)
    ensures Tidy(s')
  {
    hide MadeOk, CopiesOk, StraysOk, HistoryOk, CompletedOk, AnswersOk;
  }

  /** Reserving the deletion of a key whose artifact has no row, or whose deletion is reserved already. */
  lemma ReserveAbsent(s: State, key: Key, taskId: Id, now: Time)
    requires Kept(s) && taskId !in s.used && key.id in s.claims && key == KeyFor(s.claims, key.id)
    requires Open(s.records, s.claims, key.id) ==> !Fits(s.claims[key.id])
    requires key.id !in s.artifacts || key in s.tasks
    ensures Keeps(s, Reserve(s.(used := s.used + {taskId}), key, NewTask(taskId, None, now)))
  {
    if key in s.tasks {
      MoreUsed(s, taskId);
    } else {
      hide Kept, Tidy;
      if Tidy(s) {
        AbsentUnpinned(s, key.id);
      }
      ReserveKeeps(s, key, NewTask(taskId, None, now));
    }
  }

  lemma AnsweredBodyOk(s: State, scope: Scope, status: int, body: Body, now: Time)
    requires scope in s.records && s.records[scope].status == InProgress && scope.path.MaterialUpload?
    requires status != 201 && !body.ArtifactBody?
    ensures BodyOk(s.created, scope, Execute(s.records, Complete(scope, status, body, now))[scope])
  {
  }

  lemma AnsweredKeeps(s: State, t: Id, status: int, body: Body, taskId: Id, now: Time)
    requires Kept(s) && MaterialProceeds(s, t) && taskId !in s.used
    requires status != 201 && !body.ArtifactBody?
    requires var a := s.attempts[t]; a.resource !in s.artifacts || KeyOf(a.scope, a.resource) in s.tasks
    ensures var a := s.attempts[t];
            Keeps(s, Reserve(s.(records := Execute(s.records, Complete(a.scope, status, body, now)),
                                attempts := s.attempts - {t}, used := s.used + {taskId}),
                             KeyOf(a.scope, a.resource), NewTask(taskId, None, now)))
  {
    var a := s.attempts[t];
    MaterialAttempt(s, t);
    AnsweredBodyOk(s, a.scope, status, body, now);
    hide Kept, Tidy, BodyOk;
    CompleteStep(s, t, a.scope, status, body, now);
    var s1 := s.(records := Execute(s.records, Complete(a.scope, status, body, now)), attempts := s.attempts - {t});
    ReserveAbsent(s1, KeyOf(a.scope, a.resource), taskId, now);
  }

  lemma OutOfBoundsKeeps(s: State, t: Id, taskId: Id, now: Time)
    requires Kept(s) && MaterialProceeds(s, t) && taskId !in s.used && !s.attempts[t].upload.fits
    requires var a := s.attempts[t]; a.resource !in s.artifacts || KeyOf(a.scope, a.resource) in s.tasks
    ensures var a := s.attempts[t];
            Keeps(s, Reserve(s.(records := Execute(s.records, ReleaseLease(a.scope, now)),
                                attempts := s.attempts - {t}, used := s.used + {taskId}),
                             KeyOf(a.scope, a.resource), NewTask(taskId, None, now)))
  {
    var a := s.attempts[t];
    MaterialAttempt(s, t);
    hide Kept, Tidy;
    ReleaseStep(s, t, a.scope, now);
    var s1 := s.(records := Execute(s.records, ReleaseLease(a.scope, now)), attempts := s.attempts - {t});
    ReserveAbsent(s1, KeyOf(a.scope, a.resource), taskId, now);
  }

  lemma TellKeeps(s: State, told': set<Told>)
    requires Kept(s) && forall t :: t in told' && t.status == 201 ==> t in s.told
    ensures Keeps(s, s.(told := told'))
  {
    hide RecordsOk, OpenOk, AttemptsOk, ObjectsOk, RowsOk, TasksOk, TaskIdsOk, MadeOk, CopiesOk, PinsOk, StraysOk,
         HistoryOk, CompletedOk, AnswersOk, Made;
  }

  lemma SameCaptureKeeps(s: State, t: Id, artifact: Id, taskId: Id, now: Time)
    requires Kept(s) && MaterialProceeds(s, t) && taskId !in s.used && s.attempts[t].upload.fits
    requires var a := s.attempts[t]; a.resource !in s.artifacts || KeyOf(a.scope, a.resource) in s.tasks
    ensures Keeps(s, FinishMaterial(s, t, SameCapture(artifact), taskId, now))
  {
    hide Kept, Tidy, Execute;
    AnsweredKeeps(s, t, 200, MaterialBody(artifact), taskId, now);
    var s' := FinishMaterial(s, t, SameCapture(artifact), taskId, now);
    TellKeeps(s'.(told := s.told), s'.told);
  }

  /** The branches that reserve the uploaded object, and those that write nothing. */
  lemma MaterialRestKeeps(s: State, t: Id, outcome: MaterialOutcome, taskId: Id, now: Time)
    requires Kept(s) && MaterialProceeds(s, t) && taskId !in s.used && !Registers(s, t, outcome, now)
    requires Reserves(s, t, outcome) ==>
               var a := s.attempts[t]; a.resource !in s.artifacts || KeyOf(a.scope, a.resource) in s.tasks
    ensures Keeps(s, FinishMaterial(s, t, outcome, taskId, now))
  {
    hide Kept, Tidy, Artifact.Valid, Taken, Execute, NewRow;
    var a := s.attempts[t];
    if outcome.Reject? {
      AnsweredKeeps(s, t, outcome.refusal.ResponseStatus(), ErrorBody(outcome.refusal), taskId, now);
    } else if !a.upload.fits {
      OutOfBoundsKeeps(s, t, taskId, now);
    } else if outcome.SameCapture? {
      SameCaptureKeeps(s, t, outcome.artifact, taskId, now);
    } else {
      CrashUploadKeeps(s, t);
      MoreUsed(s.(attempts := s.attempts - {t}), taskId);
    }
  }

  /** A safe step keeps the storage safe, whichever claim the record is of. */
  lemma MaterialSafeKeeps(s: State, t: Id, outcome: MaterialOutcome, taskId: Id, now: Time)
    requires Kept(s) && MaterialProceeds(s, t) && taskId !in s.used && MaterialSafe(s, t, outcome, now)
    ensures Kept(FinishMaterial(s, t, outcome, taskId, now))
  {
    hide Kept, Tidy, Registers, Reserves, Secure, FinishMaterial;
    if Registers(s, t, outcome, now) {
      RegisterKept(s, t, outcome, taskId, now);
    } else {
      MaterialRestKeeps(s, t, outcome, taskId, now);
    }
  }

  /** A caller of a material upload that finds the record answered is told the stored answer. */
  lemma MaterialReplayKeeps(s: State, t: Id, outcome: MaterialOutcome, taskId: Id, now: Time)
    requires Kept(s) && !MaterialProceeds(s, t)
    ensures Keeps(s, FinishMaterial(s, t, outcome, taskId, now))
  {
    hide Kept, Tidy, Replayed;
    CrashUploadKeeps(s, t);
    MoreUsed(s.(attempts := s.attempts - {t}), taskId);
    if MaterialReplays(s, t) {
      ReplayedKeeps(s.(attempts := s.attempts - {t}, used := s.used + {taskId}), s.attempts[t].scope);
    }
  }

  /** A row registered for a claim other than the record's own: the record answers a foreign artifact. */
  lemma StaleRegisterBreaks(s: State, t: Id, outcome: MaterialOutcome, taskId: Id, now: Time)
    requires MaterialProceeds(s, t) && Registers(s, t, outcome, now)
    requires s.records[s.attempts[t].scope].resource != Some(s.attempts[t].resource)
    ensures var s' := FinishMaterial(s, t, outcome, taskId, now); !CompletedOk(s'.records, s'.created)
  {
    var a := s.attempts[t];
    var s' := FinishMaterial(s, t, outcome, taskId, now);
    assert a.scope in s'.records && !BodyOk(s'.created, a.scope, s'.records[a.scope]);
  }

  /** An object reserved for deletion as if it had no row, though it has one. */
  lemma StaleReserveBreaks(s: State, t: Id, outcome: MaterialOutcome, taskId: Id, now: Time)
    requires MaterialProceeds(s, t) && Reserves(s, t, outcome)
    requires var a := s.attempts[t]; a.resource in s.artifacts && KeyOf(a.scope, a.resource) !in s.tasks
    ensures var s' := FinishMaterial(s, t, outcome, taskId, now);
            !TasksOk(s'.tasks, s'.deletions, s'.claims, s'.used, s'.artifacts)
  {
    var a := s.attempts[t];
    var key := KeyOf(a.scope, a.resource);
    var s' := FinishMaterial(s, t, outcome, taskId, now);
    assert key in s'.tasks && s'.tasks[key].artifact.None? && key.id in s'.artifacts;
  }

  /** The record's own artifact ID, where the attempt registers, makes its object secure. */
  lemma OwnIsSecure(s: State, t: Id, outcome: MaterialOutcome, now: Time)
    requires Kept(s) && MaterialProceeds(s, t) && Registers(s, t, outcome, now)
    requires s.records[s.attempts[t].scope].resource == Some(s.attempts[t].resource)
    ensures Secure(s, KeyOf(s.attempts[t].scope, s.attempts[t].resource))
  {
    MaterialAttempt(s, t);
    MayInsertIsOpen(s, t);
  }

  lemma ClaimSafeKeeps(s: State, t: Id, outcome: MaterialOutcome, taskId: Id, now: Time)
    requires Inv(s) && MaterialProceeds(s, t) && taskId !in s.used && ClaimSafe(s, t, outcome, now)
    ensures Inv(FinishMaterial(s, t, outcome, taskId, now))
  {
    hide Kept, Tidy, Registers, Reserves, Secure, FinishMaterial;
    if Registers(s, t, outcome, now) {
      OwnIsSecure(s, t, outcome, now);
      RegisterKept(s, t, outcome, taskId, now);
      RegisterTidy(s, t, outcome, taskId, now);
    } else {
      MaterialRestKeeps(s, t, outcome, taskId, now);
    }
  }

  /** The last transaction of a material upload keeps the whole invariant exactly when it is safe for the claim. */
  lemma MaterialExact(s: State, t: Id, outcome: MaterialOutcome, taskId: Id, now: Time)
    requires Inv(s) && MaterialProceeds(s, t) && taskId !in s.used
    ensures Inv(FinishMaterial(s, t, outcome, taskId, now)) <==> ClaimSafe(s, t, outcome, now)
  {
    if ClaimSafe(s, t, outcome, now) {
      ClaimSafeKeeps(s, t, outcome, taskId, now);
    } else if Registers(s, t, outcome, now) {
      StaleRegisterBreaks(s, t, outcome, taskId, now);
    } else {
      StaleReserveBreaks(s, t, outcome, taskId, now);
    }
  }

  /** The comparison that the screenshot upload makes is enough for the material upload too. */
  lemma FencedIsSafe(s: State, t: Id, outcome: MaterialOutcome, now: Time)
    requires Kept(s) && MaterialProceeds(s, t)
    requires s.records[s.attempts[t].scope].resource == Some(s.attempts[t].resource)
    ensures ClaimSafe(s, t, outcome, now) && MaterialSafe(s, t, outcome, now)
  {
    MaterialAttempt(s, t);
    assert Open(s.records, s.claims, s.attempts[t].resource);
    if Registers(s, t, outcome, now) {
      OwnIsSecure(s, t, outcome, now);
    }
  }
}
