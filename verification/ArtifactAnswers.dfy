/** What the callers of uploads are answered, in every run whatsoever: nothing here depends on how long an
    attempt sleeps, or on tasks, objects and references. */
module ArtifactAnswers {
  import opened Common
  import opened Entities
  import opened Idempotency
  import opened ArtifactStore
  import opened ArtifactInvariant

  ghost predicate BoundOk(attempts: map<Id, Attempt>, claims: Claims) {
    forall t :: t in attempts ==>
      && attempts[t].resource in claims && claims[attempts[t].resource].scope == attempts[t].scope
      && claims[attempts[t].resource].upload == attempts[t].upload
  }

  /** Rows are the ones that were claimed; a screenshot's was made once, and only when its claim was answered. */
  ghost predicate CreatedOk(records: Records, claims: Claims, created: seq<Artifact>) {
    && (forall i :: 0 <= i < |created| ==>
          created[i].id in claims && created[i].Valid() && RowFits(created[i], claims[created[i].id]))
    && (forall i, j :: 0 <= i < j < |created| && created[i].id == created[j].id ==>
          !claims[created[i].id].scope.path.ArtifactUpload?)
    && (forall r :: Open(records, claims, r) && claims[r].scope.path.ArtifactUpload? ==> !Made(created, r))
  }

  ghost predicate ShotOk(created: seq<Artifact>, scope: Scope, r: Record<Upload, Body>) {
    if scope.path.ArtifactUpload? then BodyOk(created, scope, r) else r.body.Some? && !r.body.value.ArtifactBody?
  }

  ghost predicate ShotsOk(records: Records, created: seq<Artifact>) {
    forall scope :: scope in records && records[scope].status == Completed ==> ShotOk(created, scope, records[scope])
  }

  /** What was told of a material is what its claim's record says, while it is there. */
  predicate TellOk(t: Told, records: Records, claims: Claims) {
    && t.resource in claims && claims[t.resource].scope == t.scope && !Open(records, claims, t.resource)
    && (t.scope in records && records[t.scope].resource == Some(t.resource) ==>
          t in MaterialAnswer(t.scope, records[t.scope]))
  }

  ghost predicate TellsOk(told: set<Told>, records: Records, claims: Claims) {
    && (forall t :: t in told ==> TellOk(t, records, claims))
    && (forall t, u :: t in told && u in told && t.resource == u.resource ==> t == u)
  }

  ghost predicate Answered(s: State) {
    && RecordsOk(s.records, s.claims) && BoundOk(s.attempts, s.claims) && s.claims.Keys <= s.used
    && CreatedOk(s.records, s.claims, s.created) && ShotsOk(s.records, s.created)
    && AnswersOk(s.answers, s.created, s.claims) && TellsOk(s.told, s.records, s.claims)
  }

  lemma EmptyAnswered()
    ensures Answered(EMPTY)
  {
  }

  // ------------------------------------------------------------------------------- quiet steps

  /** Attempts may go or move on, but none changes its claim. */
  ghost predicate SameClaims(attempts: map<Id, Attempt>, attempts': map<Id, Attempt>) {
    forall t :: t in attempts' ==>
      && t in attempts && attempts'[t].resource == attempts[t].resource
      && attempts'[t].scope == attempts[t].scope && attempts'[t].upload == attempts[t].upload
  }

  /** No record, row or answer changes. */
  ghost predicate Quiet(s: State, s': State) {
    && s'.records == s.records && s'.claims == s.claims && s'.created == s.created
    && s'.answers == s.answers && s'.told == s.told && s.used <= s'.used
    && (s'.attempts == s.attempts || SameClaims(s.attempts, s'.attempts))
  }

  lemma QuietAnswered(s: State, s': State)
    requires Answered(s) && Quiet(s, s')
    ensures Answered(s')
  {
    hide RecordsOk, CreatedOk, ShotsOk, AnswersOk, TellsOk;
  }

  predicate TouchesRecords(e: Event) {
    || e.EBeginUpload? || e.ERelease? || e.ERefuseMaterial? || e.EFinishScreenshot? || e.EFinishMaterial?
    || e.EExpireRecord?
  }

  lemma FewerClaims(attempts: map<Id, Attempt>, t: Id)
    ensures SameClaims(attempts, attempts - {t})
    ensures t in attempts ==> forall phase {:trigger attempts[t].(phase := phase)} ::
              SameClaims(attempts, attempts[t := attempts[t].(phase := phase)])
  {
  }

  lemma QuietPut(s: State, t: Id, applied: bool, late: bool, definite: bool)
    ensures Quiet(s, PutSucceeds(s, t)) && Quiet(s, PutFails(s, t, applied, late, definite))
    ensures Quiet(s, CrashUpload(s, t))
  {
    hide SameClaims;
    FewerClaims(s.attempts, t);
  }

  lemma QuietLatePut(s: State, key: Key, picture: Picture)
    ensures Quiet(s, LatePut(s, key, picture))
  {
    hide SameClaims;
    FewerClaims(s.attempts, "");
  }

  lemma QuietReference(s: State, tx: Id, id: Id)
    ensures Quiet(s, Pin(s, id)) && Quiet(s, ReadForRun(s, tx, id)) && Quiet(s, TakeForRun(s, tx))
  {
    hide SameClaims, Unreserved;
    if Unreserved(s, id) {}
    if tx in s.readers {}
  }

  lemma QuietPromote(s: State, id: Id, now: Time)
    ensures Quiet(s, Promote(s, id, now))
  {
  }

  lemma QuietDrop(s: State, id: Id, taskId: Id, now: Time)
    ensures Quiet(s, DropMaterial(s, id, taskId, now))
  {
    if id in s.materials && id in s.artifacts {}
  }

  lemma QuietStale(s: State, id: Id, taskId: Id, now: Time)
    ensures Quiet(s, ReserveStale(s, id, taskId, now))
  {
    if Stale(s, id, now) {}
  }

  lemma QuietErase(s: State, w: Id, key: Key, applied: bool, late: bool, now: Time)
    ensures Quiet(s, MarkRunning(s, w, key, now)) && Quiet(s, EraseSucceeds(s, w))
    ensures Quiet(s, EraseFails(s, w, applied, late)) && Quiet(s, LateDelete(s, key))
  {
    hide SameClaims, Due;
    if Due(s, key, now) {}
    if w in s.deletions {}
  }

  lemma QuietFinish(s: State, w: Id)
    ensures Quiet(s, FinishDeletion(s, w))
  {
    if w in s.deletions && DeleteRefused(s, w) {}
  }

  lemma QuietDeletion(s: State, w: Id, now: Time)
    ensures Quiet(s, Retry(s, w, now)) && Quiet(s, RecoverTasks(s)) && Quiet(s, CrashDeletion(s, w))
  {
  }

  lemma QuietStep(s: State, e: Event)
    requires !TouchesRecords(e)
    ensures Quiet(s, Next(s, e))
  {
    hide Quiet, LatePut, PutSucceeds, PutFails, CrashUpload, Pin, ReadForRun, TakeForRun, Promote, DropMaterial,
         ReserveStale, MarkRunning, EraseSucceeds, EraseFails, LateDelete, Retry, FinishDeletion, RecoverTasks,
         CrashDeletion;
    match e
    case EPutSucceeds(t) => QuietPut(s, t, false, false, false);
    case EPutFails(t, applied, late, definite) => QuietPut(s, t, applied, late, definite);
    case ELatePut(key, picture) => QuietLatePut(s, key, picture);
    case ECrashUpload(t) => QuietPut(s, t, false, false, false);
    case EPin(id) => QuietReference(s, "", id);
    case EReadForRun(tx, id) => QuietReference(s, tx, id);
    case ETakeForRun(tx) => QuietReference(s, tx, "");
    case EPromote(id, now) => QuietPromote(s, id, now);
    case EDropMaterial(id, taskId, now) => QuietDrop(s, id, taskId, now);
    case EReserveStale(id, taskId, now) => QuietStale(s, id, taskId, now);
    case EMarkRunning(w, key, now) => QuietErase(s, w, key, false, false, now);
    case EEraseSucceeds(w) => QuietErase(s, w, Key("", ""), false, false, 0);
    case EEraseFails(w, applied, late) => QuietErase(s, w, Key("", ""), applied, late, 0);
    case ELateDelete(key) => QuietErase(s, "", key, false, false, 0);
    case ERetry(w, now) => QuietDeletion(s, w, now);
    case EFinishDeletion(w) => QuietFinish(s, w);
    case ERecoverTasks => QuietDeletion(s, "", 0);
    case ECrashDeletion(w) => QuietDeletion(s, w, 0);
  }

  // ---------------------------------------------------------------------------------- records

  lemma FewerTells(told: set<Told>, records: Records, records': Records, claims: Claims, scope: Scope)
    requires TellsOk(told, records, claims) && RecordsOk(records, claims)
    requires scope in records && records[scope].status == InProgress
    requires forall other :: other in records' && other != scope ==> other in records && records'[other] == records[other]
    requires forall r :: Open(records', claims, r) ==> Open(records, claims, r)
    requires scope in records' ==> records'[scope].resource == records[scope].resource
    ensures TellsOk(told, records', claims)
    ensures forall t :: t in told ==> records[scope].resource != Some(t.resource)
  {
    forall t | t in told ensures TellOk(t, records', claims) && records[scope].resource != Some(t.resource) {
      assert TellOk(t, records, claims);
    }
  }

  /** A record in progress is settled or answered. */
  lemma SettleAnswered(s: State, scope: Scope, r': Record<Upload, Body>)
    requires Answered(s) && scope in s.records && s.records[scope].status == InProgress && Settles(s.records[scope], r')
    requires r'.status == Completed ==> ShotOk(s.created, scope, r')
    ensures Answered(s.(records := s.records[scope := r']))
    ensures forall t :: t in s.told ==> s.records[scope].resource != Some(t.resource)
  {
    hide AnswersOk, BoundOk, ShotOk, RecordsOk, TellsOk, TellOk, Made;
    SettleRecords(s.records, s.claims, scope, r');
    FewerTells(s.told, s.records, s.records[scope := r'], s.claims, scope);
  }

  lemma ReleaseAnswered(s: State, scope: Scope, now: Time)
    requires Answered(s)
    ensures Answered(s.(records := Execute(s.records, ReleaseLease(scope, now))))
  {
    assert RecordsOk(s.records, s.claims);
    hide Answered, RecordsOk;
    if scope in s.records && s.records[scope].status == InProgress {
      ReleaseSettles(s.records, s.claims, scope, now);
      SettleAnswered(s, scope, Execute(s.records, ReleaseLease(scope, now))[scope]);
    }
  }

  /** A record in progress is answered with `body`. */
  lemma CompleteAnswered(s: State, scope: Scope, status: int, body: Body, now: Time)
    requires Answered(s) && scope in s.records && s.records[scope].status == InProgress
    requires ShotOk(s.created, scope, Execute(s.records, Complete(scope, status, body, now))[scope])
    ensures Answered(s.(records := Execute(s.records, Complete(scope, status, body, now))))
    ensures forall t :: t in s.told ==> s.records[scope].resource != Some(t.resource)
  {
    assert RecordsOk(s.records, s.claims);
    hide Answered, RecordsOk, ShotOk;
    CompleteSettles(s.records, s.claims, scope, status, body, now);
    SettleAnswered(s, scope, Execute(s.records, Complete(scope, status, body, now))[scope]);
  }

  lemma ForgetAnswered(s: State, scope: Scope)
    requires Answered(s)
    ensures Answered(s.(records := s.records - {scope}))
  {
    hide AnswersOk, BoundOk, ShotOk, RecordsOk, Made;
    ForgetRecords(s.records, s.claims, scope);
  }

  /** A completed record's answer is the one that was told before. */
  lemma ReplayAnswered(s: State, scope: Scope)
    requires Answered(s) && scope in s.records && s.records[scope].status == Completed
    ensures Answered(Replayed(s, scope, s.records[scope]))
  {
    ReplayTells(s, scope);
    ReplayShots(s, scope);
    hide RecordsOk, BoundOk, CreatedOk, ShotsOk, AnswersOk, TellsOk, ReplayAnswer, MaterialAnswer;
  }

  lemma ReplayTells(s: State, scope: Scope)
    requires TellsOk(s.told, s.records, s.claims) && RecordsOk(s.records, s.claims)
    requires scope in s.records && s.records[scope].status == Completed
    ensures TellsOk(s.told + MaterialAnswer(scope, s.records[scope]), s.records, s.claims)
  {
    var r := s.records[scope].resource.value;
    assert s.claims[r].scope == scope && !Open(s.records, s.claims, r);
    forall t | t in s.told && t.resource == r ensures t in MaterialAnswer(scope, s.records[scope]) {
      assert TellOk(t, s.records, s.claims);
    }
  }

  lemma ShotReplays(records: Records, claims: Claims, created: seq<Artifact>, scope: Scope)
    requires RecordsOk(records, claims) && CreatedOk(records, claims, created)
    requires scope in records && ShotOk(created, scope, records[scope]) && scope.path.ArtifactUpload?
    ensures var answer := ReplayAnswer(scope, records[scope]);
            && answer.Some? && answer.value.artifact in created
            && answer.value.artifact.id == answer.value.resource
            && records[scope].resource == Some(answer.value.resource) && answer.value.scope == scope
  {
    var r := records[scope];
    var i :| 0 <= i < |created| && created[i].id == r.resource.value
             && r.body.value == ArtifactBody(EncodeArtifact(created[i]));
    assert created[i].Valid();
    hide RecordsOk, CreatedOk, ShotOk, BodyOk;
    ArtifactReplay(created[i]);
  }

  lemma MoreAnswers(answers: set<Answer>, a: Answer, created: seq<Artifact>, claims: Claims)
    requires AnswersOk(answers, created, claims)
    requires a.artifact in created && a.artifact.id == a.resource && a.scope.path.ArtifactUpload?
    requires a.resource in claims && claims[a.resource].scope == a.scope
    ensures AnswersOk(answers + {a}, created, claims)
  {
  }

  lemma ReplayShots(s: State, scope: Scope)
    requires RecordsOk(s.records, s.claims) && ShotsOk(s.records, s.created) && AnswersOk(s.answers, s.created, s.claims)
    requires CreatedOk(s.records, s.claims, s.created) && scope in s.records && s.records[scope].status == Completed
    ensures AnswersOk(Replayed(s, scope, s.records[scope]).answers, s.created, s.claims)
  {
    assert ShotOk(s.created, scope, s.records[scope]);
    assert s.claims[s.records[scope].resource.value].scope == scope;
    hide CreatedOk, ShotsOk, MaterialAnswer, RecordsOk, AnswersOk;
    if scope.path.ArtifactUpload? {
      hide ShotOk, ReplayAnswer;
      ShotReplays(s.records, s.claims, s.created, scope);
      MoreAnswers(s.answers, ReplayAnswer(scope, s.records[scope]).value, s.created, s.claims);
    } else {
      assert ReplayAnswer(scope, s.records[scope]).None?;
    }
  }

  // ---------------------------------------------------------------------------------- claims

  lemma StartAnswered(s: State, scope: Scope, upload: Upload, r: Id, now: Time)
    requires Answered(s) && r !in s.used && scope !in s.records && IsUploadPath(scope.path)
    ensures var row := FirstRecord(upload, r, now);
            Answered(s.(records := s.records[scope := row], used := s.used + {r},
                        claims := s.claims[r := FirstClaim(scope, upload, row.createdAt)]))
  {
    StartRecords(s, scope, upload, r, now);
    var row := FirstRecord(upload, r, now);
    var claims := s.claims[r := FirstClaim(scope, upload, row.createdAt)];
    StartCreated(s, scope, row, r, claims[r]);
    StartTells(s, scope, row, r, claims[r]);
    hide RecordsOk, CreatedOk, TellsOk, ShotOk;
  }

  lemma StartCreated(s: State, scope: Scope, row: Record<Upload, Body>, r: Id, claim: FirstClaim)
    requires CreatedOk(s.records, s.claims, s.created) && r !in s.claims
    requires forall q :: Open(s.records[scope := row], s.claims[r := claim], q) ==> q == r || Open(s.records, s.claims, q)
    ensures CreatedOk(s.records[scope := row], s.claims[r := claim], s.created)
  {
    hide Artifact.Valid, RowFits;
  }

  lemma StartTells(s: State, scope: Scope, row: Record<Upload, Body>, r: Id, claim: FirstClaim)
    requires TellsOk(s.told, s.records, s.claims) && r !in s.claims
    requires scope !in s.records && row.resource == Some(r)
    requires forall q :: Open(s.records[scope := row], s.claims[r := claim], q) ==> q == r || Open(s.records, s.claims, q)
    ensures TellsOk(s.told, s.records[scope := row], s.claims[r := claim])
  {
    forall t | t in s.told ensures TellOk(t, s.records[scope := row], s.claims[r := claim]) {
      assert TellOk(t, s.records, s.claims);
    }
  }

  lemma BindAnswered(s: State, t: Id, scope: Scope)
    requires Answered(s) && scope in s.records && s.records[scope].resource.Some?
    ensures var r := s.records[scope];
            Answered(s.(attempts := s.attempts[t := Attempt(Putting, scope, r.hash, r.resource.value)]))
  {
    hide CreatedOk, ShotsOk, AnswersOk, TellsOk;
  }

  lemma FirstAnswered(s: State, t: Id, scope: Scope, upload: Upload, r: Id, now: Time)
    requires Answered(s) && r !in s.used && scope !in s.records && IsUploadPath(scope.path)
    ensures var row := FirstRecord(upload, r, now);
            Answered(s.(records := s.records[scope := row], used := s.used + {r},
                        claims := s.claims[r := FirstClaim(scope, upload, row.createdAt)],
                        attempts := s.attempts[t := Attempt(Putting, scope, upload, r)]))
  {
    hide Answered, FirstRecord;
    var row := FirstRecord(upload, r, now);
    StartAnswered(s, scope, upload, r, now);
    StartedRecord(upload, r, now);
    BindAnswered(s.(records := s.records[scope := row], used := s.used + {r},
                    claims := s.claims[r := FirstClaim(scope, upload, row.createdAt)]), t, scope);
  }

  lemma AgainAnswered(s: State, t: Id, scope: Scope, candidate: Id, now: Time)
    requires Answered(s) && LeaseOver(s.records, scope, now)
    requires var records := Execute(s.records, TakeOverLease(scope, Some(candidate), now));
             scope in records && records[scope].resource.Some?
    ensures var records := Execute(s.records, TakeOverLease(scope, Some(candidate), now));
            Answered(s.(records := records, attempts := s.attempts[
              t := Attempt(Putting, scope, records[scope].hash, records[scope].resource.value)]))
  {
    hide Answered, LeaseOver, Execute;
    TakeOverAnswered(s, scope, candidate, now);
    BindAnswered(s.(records := Execute(s.records, TakeOverLease(scope, Some(candidate), now))), t, scope);
  }

  lemma MoreUsedAnswered(s: State, id: Id)
    requires Answered(s)
    ensures Answered(s.(used := s.used + {id}))
  {
    hide Answered;
    QuietAnswered(s, s.(used := s.used + {id}));
  }

  lemma BeginAnswered(s: State, t: Id, scope: Scope, upload: Upload, candidate: Id, now: Time)
    requires Answered(s) && candidate !in s.used && IsUploadPath(scope.path)
    ensures Answered(BeginUpload(s, t, scope, upload, candidate, now))
  {
    assert ValidTable(s.records);
    hide Answered, BeginUpload, Execute, LeaseOver, Replayed, FirstRecord, ValidTable, IsUploadPath;
    BeginCases(s, t, scope, upload, candidate, now);
    MoreUsedAnswered(s, candidate);
    var used := s.(used := s.used + {candidate});
    if scope !in s.records {
      FirstAnswered(s, t, scope, upload, candidate, now);
    } else if s.records[scope].hash == upload && s.records[scope].status == Completed {
      ReplayAnswered(used, scope);
    } else if s.records[scope].hash == upload && LeaseOver(s.records, scope, now) {
      AgainAnswered(used, t, scope, candidate, now);
    }
  }

  lemma TakeOverAnswered(s: State, scope: Scope, candidate: Id, now: Time)
    requires Answered(s) && LeaseOver(s.records, scope, now)
    ensures Answered(s.(records := Execute(s.records, TakeOverLease(scope, Some(candidate), now))))
  {
    assert RecordsOk(s.records, s.claims);
    hide Answered, RecordsOk;
    TakeOverSettles(s.records, s.claims, scope, candidate, now);
    SettleAnswered(s, scope, Execute(s.records, TakeOverLease(scope, Some(candidate), now))[scope]);
  }

  // ---------------------------------------------------------------------------------- endings

  lemma LeaveAnswered(s: State, t: Id)
    requires Answered(s)
    ensures Answered(s.(attempts := s.attempts - {t}))
  {
    hide Answered;
    QuietAnswered(s, s.(attempts := s.attempts - {t}));
  }

  lemma ReleaseStepAnswered(s: State, t: Id, now: Time)
    requires Answered(s)
    ensures Answered(Release(s, t, now))
  {
    hide Answered, Execute;
    if t in s.attempts && s.attempts[t].phase == Releasing {
      ReleaseAnswered(s, s.attempts[t].scope, now);
      LeaveAnswered(s.(records := Execute(s.records, ReleaseLease(s.attempts[t].scope, now))), t);
    }
  }

  lemma ErrorShotOk(s: State, scope: Scope, status: int, body: Body, now: Time)
    requires scope in s.records && s.records[scope].status == InProgress
    requires !scope.path.ArtifactUpload? && !body.ArtifactBody?
    ensures ShotOk(s.created, scope, Execute(s.records, Complete(scope, status, body, now))[scope])
  {
  }

  lemma RefuseAnswered(s: State, t: Id, refusal: Refusal, now: Time)
    requires Answered(s)
    ensures Answered(RefuseMaterial(s, t, refusal, now))
  {
    hide Answered, ShotOk, Refusal.ResponseStatus;
    if t in s.attempts && s.attempts[t].phase == Putting && s.attempts[t].scope.path.MaterialUpload? {
      var scope := s.attempts[t].scope;
      if scope in s.records && s.records[scope].status == InProgress {
        ErrorShotOk(s, scope, refusal.ResponseStatus(), ErrorBody(refusal), now);
        CompleteAnswered(s, scope, refusal.ResponseStatus(), ErrorBody(refusal), now);
      }
      LeaveAnswered(
        s.(records := Execute(s.records, Complete(scope, refusal.ResponseStatus(), ErrorBody(refusal), now))), t);
    }
  }

  lemma ExpireAnswered(s: State, scope: Scope, taskId: Id, now: Time)
    requires Answered(s)
    ensures Answered(ExpireRecord(s, scope, taskId, now))
  {
    hide Answered, Expired, NewTask;
    if scope in s.records && Expired(s.records[scope], now) {
      ForgetAnswered(s, scope);
      QuietAnswered(s.(records := s.records - {scope}), ExpireRecord(s, scope, taskId, now));
    }
  }

  /** A new row, of a claim that has none yet if it is a screenshot's. */
  lemma CreateAnswered(s: State, row: Artifact)
    requires Answered(s) && row.id in s.claims && row.Valid() && RowFits(row, s.claims[row.id])
    requires s.claims[row.id].scope.path.ArtifactUpload? ==>
               !Made(s.created, row.id) && !Open(s.records, s.claims, row.id)
    ensures Answered(s.(created := s.created + [row]))
  {
    CreateRows(s, row);
    CreateShots(s, row);
    hide RecordsOk, BoundOk, CreatedOk, ShotsOk, TellsOk, Artifact.Valid;
  }

  lemma CreateRows(s: State, row: Artifact)
    requires CreatedOk(s.records, s.claims, s.created)
    requires row.id in s.claims && row.Valid() && RowFits(row, s.claims[row.id])
    requires s.claims[row.id].scope.path.ArtifactUpload? ==>
               !Made(s.created, row.id) && !Open(s.records, s.claims, row.id)
    ensures CreatedOk(s.records, s.claims, s.created + [row])
  {
    MadeGrows(s.created, row);
    forall i, j | 0 <= i < j < |s.created + [row]| && (s.created + [row])[i].id == (s.created + [row])[j].id
      ensures !s.claims[(s.created + [row])[i].id].scope.path.ArtifactUpload?
    {
      if j == |s.created| {
        assert s.created[i].id == row.id;
      }
    }
    hide Artifact.Valid, RowFits;
  }

  lemma CreateShots(s: State, row: Artifact)
    requires ShotsOk(s.records, s.created)
    ensures ShotsOk(s.records, s.created + [row])
  {
    forall scope | scope in s.records && s.records[scope].status == Completed
      ensures ShotOk(s.created + [row], scope, s.records[scope])
    {
      assert ShotOk(s.created, scope, s.records[scope]);
      if scope.path.ArtifactUpload? {
        BodyGrows(s.created, row, scope, s.records[scope]);
      }
    }
  }

  /** An open claim that is answered is open no more; then its row may be made, and its record names it. */
  lemma ScreenshotRowAnswered(s: State, t: Id, row: Artifact, now: Time)
    requires Answered(s) && MayInsert(s, t) && RowOf(row, s.attempts[t]) && s.attempts[t].scope.path.ArtifactUpload?
    ensures var a := s.attempts[t];
            Answered(s.(records := Execute(s.records, Complete(a.scope, 201, ArtifactBody(EncodeArtifact(row)), now)),
                        created := s.created + [row]))
  {
    var a := s.attempts[t];
    assert BoundOk(s.attempts, s.claims) && RecordsOk(s.records, s.claims) && CreatedOk(s.records, s.claims, s.created);
    assert Open(s.records, s.claims, a.resource);
    ScreenshotBodyOk(s, t, row, now);
    CreateThenComplete(s, a.scope, row, now);
  }

  lemma CreateThenComplete(s: State, scope: Scope, row: Artifact, now: Time)
    requires Answered(s) && scope.path.ArtifactUpload? && scope in s.records && s.records[scope].status == InProgress
    requires Open(s.records, s.claims, row.id) && s.claims[row.id].scope == scope
    requires row.Valid() && RowFits(row, s.claims[row.id]) && !Made(s.created, row.id)
    requires BodyOk(s.created + [row], scope,
                    Execute(s.records, Complete(scope, 201, ArtifactBody(EncodeArtifact(row)), now))[scope])
    ensures Answered(s.(records := Execute(s.records, Complete(scope, 201, ArtifactBody(EncodeArtifact(row)), now)),
                        created := s.created + [row]))
  {
    hide Made, BodyOk, Artifact.Valid, EncodeArtifact, BoundOk, ShotOk, RecordsOk, TellsOk, TellOk;
    var records' := Execute(s.records, Complete(scope, 201, ArtifactBody(EncodeArtifact(row)), now));
    var r' := records'[scope];
    CompleteSettles(s.records, s.claims, scope, 201, ArtifactBody(EncodeArtifact(row)), now);
    SettleRecords(s.records, s.claims, scope, r');
    FewerTells(s.told, s.records, records', s.claims, scope);
    CreateRows(s.(records := records'), row);
    CreateShots(s, row);
    OneShot(s.created + [row], scope, r');
    hide CreatedOk;
  }

  lemma OneShot(created: seq<Artifact>, scope: Scope, r: Record<Upload, Body>)
    requires scope.path.ArtifactUpload? && BodyOk(created, scope, r)
    ensures ShotOk(created, scope, r)
  {
  }

  lemma FinishScreenshotAnswered(s: State, t: Id, now: Time)
    requires Answered(s)
    ensures Answered(FinishScreenshot(s, t, now))
  {
    LeaveAnswered(s, t);
    if t in s.attempts && s.attempts[t].phase == Stored && s.attempts[t].scope.path.ArtifactUpload? {
      var a := s.attempts[t];
      assert a.resource in s.claims && s.claims[a.resource].scope == a.scope;
      hide Answered, NewRow, Artifact.Valid, Taken, Execute, Replayed, EncodeArtifact;
      if a.scope in s.records && s.records[a.scope].hash == a.upload {
        if s.records[a.scope].status == Completed {
          ReplayAnswered(s.(attempts := s.attempts - {t}), a.scope);
        } else if s.records[a.scope].resource == Some(a.resource) {
          InsertScreenshotAnswered(s, t, now);
        }
      }
    }
  }

  lemma InsertScreenshotAnswered(s: State, t: Id, now: Time)
    requires Answered(s) && MayInsert(s, t) && s.attempts[t].scope.path.ArtifactUpload?
    requires s.claims[s.attempts[t].resource].scope == s.attempts[t].scope
    requires s.records[s.attempts[t].scope].hash == s.attempts[t].upload
    ensures Answered(FinishScreenshot(s, t, now))
  {
    hide Answered, Artifact.Valid, Taken, Execute, EncodeArtifact;
    var a := s.attempts[t];
    var row := NewRow(a, RequestScreenshot, s.records[a.scope].createdAt);
    LeaveAnswered(s, t);
    if row.Valid() && !Taken(s.artifacts, row) {
      ScreenshotRowAnswered(s, t, row, now);
      var s1 := s.(records := Execute(s.records, Complete(a.scope, 201, ArtifactBody(EncodeArtifact(row)), now)),
                   created := s.created + [row]);
      TellScreenshot(s1, a, row);
      QuietAnswered(s1.(answers := s.answers + {Answer(a.scope, row.id, row)}), FinishScreenshot(s, t, now));
    }
  }

  lemma TellScreenshot(s: State, a: Attempt, row: Artifact)
    requires Answered(s) && |s.created| > 0 && s.created[|s.created| - 1] == row && row.id == a.resource
    requires a.resource in s.claims && s.claims[a.resource].scope == a.scope && a.scope.path.ArtifactUpload?
    ensures Answered(s.(answers := s.answers + {Answer(a.scope, row.id, row)}))
  {
    hide RecordsOk, BoundOk, CreatedOk, ShotsOk, TellsOk;
  }

  // -------------------------------------------------------------------------------- materials

  lemma TellAnswered(s: State, scope: Scope, status: int, artifact: Id, now: Time)
    requires Answered(s) && scope in s.records && s.records[scope].status == InProgress && !scope.path.ArtifactUpload?
    requires status == 200 || status == 201
    ensures Answered(s.(records := Execute(s.records, Complete(scope, status, MaterialBody(artifact), now)),
                        told := s.told + Tell(s, scope, status, artifact)))
  {
    assert RecordsOk(s.records, s.claims);
    ErrorShotOk(s, scope, status, MaterialBody(artifact), now);
    CompleteAnswered(s, scope, status, MaterialBody(artifact), now);
    var s1 := s.(records := Execute(s.records, Complete(scope, status, MaterialBody(artifact), now)));
    TellMaterial(s1, scope, s.told + Tell(s, scope, status, artifact));
  }

  /** Nothing was told of this claim before; now its record says it. */
  lemma TellMaterial(s: State, scope: Scope, told': set<Told>)
    requires Answered(s) && scope in s.records && s.records[scope].status == Completed
    requires told' == s.told + MaterialAnswer(scope, s.records[scope])
    ensures Answered(s.(told := told'))
  {
    ReplayTells(s, scope);
    hide RecordsOk, BoundOk, CreatedOk, ShotsOk, AnswersOk, TellsOk, MaterialAnswer;
  }

  lemma MaterialRowFits(s: State, t: Id, now: Time)
    requires BoundOk(s.attempts, s.claims) && t in s.attempts && s.attempts[t].upload.fits
    ensures var row := NewRow(s.attempts[t], GuideMaterial, Micro(now));
            && row.id in s.claims && RowFits(row, s.claims[row.id]) && s.claims[row.id].scope == s.attempts[t].scope
  {
  }

  lemma RegisterAnswered(s: State, t: Id, outcome: MaterialOutcome, taskId: Id, now: Time)
    requires Answered(s) && MaterialProceeds(s, t) && Registers(s, t, outcome, now)
    ensures Answered(FinishMaterial(s, t, outcome, taskId, now))
  {
    var a := s.attempts[t];
    var row := NewRow(a, GuideMaterial, Micro(now));
    MaterialRowFits(s, t, now);
    hide Answered, Taken, Execute, Artifact.Valid, RowFits, Micro, Tell, SameClaims;
    FewerClaims(s.attempts, t);
    CreateAnswered(s, row);
    TellAnswered(s.(created := s.created + [row]), a.scope, 201, row.id, now);
    QuietAnswered(s.(created := s.created + [row],
                     records := Execute(s.records, Complete(a.scope, 201, MaterialBody(row.id), now)),
                     told := s.told + Tell(s, a.scope, 201, row.id)), FinishMaterial(s, t, outcome, taskId, now));
  }

  lemma AnsweredErrorAnswered(s: State, t: Id, refusal: Refusal, taskId: Id, now: Time)
    requires Answered(s) && MaterialProceeds(s, t)
    ensures Answered(FinishMaterial(s, t, Reject(refusal), taskId, now))
  {
    hide Answered, Execute, ShotOk, Refusal.ResponseStatus;
    var scope := s.attempts[t].scope;
    ErrorShotOk(s, scope, refusal.ResponseStatus(), ErrorBody(refusal), now);
    CompleteAnswered(s, scope, refusal.ResponseStatus(), ErrorBody(refusal), now);
    QuietAnswered(s.(records := Execute(s.records, Complete(scope, refusal.ResponseStatus(), ErrorBody(refusal), now))),
                  FinishMaterial(s, t, Reject(refusal), taskId, now));
  }

  lemma SameCaptureAnswered(s: State, t: Id, artifact: Id, taskId: Id, now: Time)
    requires Answered(s) && MaterialProceeds(s, t) && s.attempts[t].upload.fits
    ensures Answered(FinishMaterial(s, t, SameCapture(artifact), taskId, now))
  {
    hide Answered, Execute;
    var scope := s.attempts[t].scope;
    TellAnswered(s, scope, 200, artifact, now);
    QuietAnswered(s.(records := Execute(s.records, Complete(scope, 200, MaterialBody(artifact), now)),
                     told := s.told + Tell(s, scope, 200, artifact)),
                  FinishMaterial(s, t, SameCapture(artifact), taskId, now));
  }

  lemma OutOfBoundsAnswered(s: State, t: Id, outcome: MaterialOutcome, taskId: Id, now: Time)
    requires Answered(s) && MaterialProceeds(s, t) && !outcome.Reject? && !s.attempts[t].upload.fits
    ensures Answered(FinishMaterial(s, t, outcome, taskId, now))
  {
    hide Answered, Execute;
    ReleaseAnswered(s, s.attempts[t].scope, now);
    QuietAnswered(s.(records := Execute(s.records, ReleaseLease(s.attempts[t].scope, now))),
                  FinishMaterial(s, t, outcome, taskId, now));
  }

  lemma MaterialProceedsAnswered(s: State, t: Id, outcome: MaterialOutcome, taskId: Id, now: Time)
    requires Answered(s) && MaterialProceeds(s, t)
    ensures Answered(FinishMaterial(s, t, outcome, taskId, now))
  {
    hide Answered, Artifact.Valid, Taken, Execute, NewRow;
    if outcome.Reject? {
      AnsweredErrorAnswered(s, t, outcome.refusal, taskId, now);
    } else if !s.attempts[t].upload.fits {
      OutOfBoundsAnswered(s, t, outcome, taskId, now);
    } else if outcome.SameCapture? {
      SameCaptureAnswered(s, t, outcome.artifact, taskId, now);
    } else if Registers(s, t, outcome, now) {
      RegisterAnswered(s, t, outcome, taskId, now);
    } else {
      LeaveAnswered(s, t);
      MoreUsedAnswered(s.(attempts := s.attempts - {t}), taskId);
    }
  }

  lemma FinishMaterialAnswered(s: State, t: Id, outcome: MaterialOutcome, taskId: Id, now: Time)
    requires Answered(s)
    ensures Answered(FinishMaterial(s, t, outcome, taskId, now))
  {
    hide Answered, Replayed;
    if MaterialProceeds(s, t) {
      MaterialProceedsAnswered(s, t, outcome, taskId, now);
    } else {
      LeaveAnswered(s, t);
      MoreUsedAnswered(s.(attempts := s.attempts - {t}), taskId);
      if MaterialReplays(s, t) {
        ReplayAnswered(s.(attempts := s.attempts - {t}, used := s.used + {taskId}), s.attempts[t].scope);
      }
    }
  }

  lemma StepAnswered(s: State, e: Event)
    requires Answered(s) && Fair(s, e)
    ensures Answered(Next(s, e))
  {
    hide Answered, BeginUpload, Release, RefuseMaterial, FinishScreenshot, FinishMaterial, ExpireRecord;
    if TouchesRecords(e) {
      match e
      case EBeginUpload(t, scope, upload, candidate, now) => BeginAnswered(s, t, scope, upload, candidate, now);
      case ERelease(t, now) => ReleaseStepAnswered(s, t, now);
      case ERefuseMaterial(t, refusal, now) => RefuseAnswered(s, t, refusal, now);
      case EFinishScreenshot(t, now) => FinishScreenshotAnswered(s, t, now);
      case EFinishMaterial(t, outcome, taskId, now) => FinishMaterialAnswered(s, t, outcome, taskId, now);
      case EExpireRecord(scope, taskId, now) => ExpireAnswered(s, scope, taskId, now);
    } else {
      hide Next;
      QuietStep(s, e);
      QuietAnswered(s, Next(s, e));
    }
  }
}
