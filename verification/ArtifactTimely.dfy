/** Uploads that take less than a day. With a clock that never goes back, a record gives way to another claim
    of the same key only a full day after it was created; so a material upload that finishes within a day of
    its claim needs no comparison of artifact IDs. */
module ArtifactTimely {
  import opened Common
  import opened Entities
  import opened Idempotency
  import opened ArtifactStore
  import opened ArtifactInvariant
  import opened ArtifactAnswers
  import opened ArtifactRuns

  function Clock(clock: Time, e: Event): Time {
    match e
    case EBeginUpload(_, _, _, _, now) => now
    case ERelease(_, now) => now
    case ERefuseMaterial(_, _, now) => now
    case EFinishScreenshot(_, now) => now
    case EFinishMaterial(_, _, _, now) => now
    case EExpireRecord(_, _, now) => now
    case _ => clock
  }

  predicate OnTime(s: State, e: Event) {
    e.EFinishMaterial? && e.attempt in s.attempts && s.attempts[e.attempt].resource in s.claims ==>
      e.now < s.claims[s.attempts[e.attempt].resource].createdAt + DAY
  }

  predicate TimelyRun(s: State, clock: Time, run: seq<Event>)
    decreases |run|
  {
    run == [] ||
    (&& Fair(s, run[0]) && clock <= Clock(clock, run[0]) && OnTime(s, run[0])
     && TimelyRun(Next(s, run[0]), Clock(clock, run[0]), run[1..]))
  }

  predicate Current(records: Records, claims: Claims, r: Id)
    requires r in claims
  {
    claims[r].scope in records && records[claims[r].scope].resource == Some(r)
  }

  predicate InOrder(r: Record<Upload, Body>, clock: Time) {
    && r.createdAt <= clock && r.createdAt % 1000 == 0
    && (r.status == Completed && r.completedAt.Some? ==> r.createdAt <= r.completedAt.value)
  }

  /** A claim that is no longer the record's own is at least a day old. */
  ghost predicate LapsesOk(records: Records, claims: Claims, clock: Time) {
    && (forall r :: r in claims ==> Current(records, claims, r) || claims[r].createdAt + DAY <= clock)
    && (forall scope :: scope in records ==> InOrder(records[scope], clock))
  }

  lemma LapsesLater(records: Records, claims: Claims, clock: Time, later: Time)
    requires LapsesOk(records, claims, clock) && clock <= later
    ensures LapsesOk(records, claims, later)
  {
  }

  lemma LapsesStart(records: Records, claims: Claims, scope: Scope, upload: Upload, r: Id, now: Time)
    requires LapsesOk(records, claims, now) && scope !in records && r !in claims
    requires forall q :: q in records ==> records[q].resource != Some(r)
    ensures var row := FirstRecord(upload, r, now);
            LapsesOk(records[scope := row], claims[r := FirstClaim(scope, upload, row.createdAt)], now)
  {
  }

  /** A record settled in place stays the record of the same claim. */
  lemma LapsesSettle(records: Records, claims: Claims, scope: Scope, r': Record<Upload, Body>, clock: Time)
    requires LapsesOk(records, claims, clock) && scope in records
    requires r'.resource == records[scope].resource && InOrder(r', clock)
    ensures LapsesOk(records[scope := r'], claims, clock)
  {
  }

  lemma LapsesExecute(records: Records, claims: Claims, statement: Statement<Upload, Body>)
    requires LapsesOk(records, claims, statement.now) && RecordsOk(records, claims)
    requires !statement.InsertIfAbsent? && !statement.DeleteExpired?
    ensures LapsesOk(Execute(records, statement), claims, statement.now)
  {
    var records' := Execute(records, statement);
    if records' != records {
      StoredComparison(records[statement.scope].createdAt, statement.now);
      assert records' == records[statement.scope := records'[statement.scope]];
      LapsesSettle(records, claims, statement.scope, records'[statement.scope], statement.now);
    }
  }

  lemma ExpiredIsOld(r: Record<Upload, Body>, clock: Time, now: Time)
    requires r.Valid() && InOrder(r, clock) && Expired(r, now)
    ensures r.createdAt + DAY <= now
  {
  }

  lemma LapsesForget(records: Records, claims: Claims, scope: Scope, now: Time)
    requires LapsesOk(records, claims, now) && RecordsOk(records, claims)
    requires scope in records && records[scope].createdAt + DAY <= now
    ensures LapsesOk(records - {scope}, claims, now)
  {
    forall r | r in claims && Current(records, claims, r) && !Current(records - {scope}, claims, r)
      ensures claims[r].createdAt + DAY <= now
    {
      assert claims[r].scope == scope;
    }
  }

  lemma NewClaim(s: State, r: Id)
    requires Kept(s) && r !in s.used
    ensures RecordsOk(s.records, s.claims) && ValidTable(s.records) && r !in s.claims
    ensures forall q :: q in s.records ==> s.records[q].resource != Some(r)
  {
  }

  lemma LapsesBegin(s: State, t: Id, scope: Scope, upload: Upload, r: Id, now: Time)
    requires Kept(s) && LapsesOk(s.records, s.claims, now) && r !in s.used
    ensures var s' := BeginUpload(s, t, scope, upload, r, now); LapsesOk(s'.records, s'.claims, now)
  {
    hide Kept, BeginUpload, ValidTable, Execute, LapsesOk, FirstRecord, RecordsOk, LeaseOver, Replayed;
    NewClaim(s, r);
    BeginCases(s, t, scope, upload, r, now);
    if scope !in s.records {
      LapsesStart(s.records, s.claims, scope, upload, r, now);
      FirstCreated(upload, r, now);
    } else {
      LapsesExecute(s.records, s.claims, TakeOverLease(scope, Some(r), now));
    }
  }

  lemma FirstCreated(upload: Upload, r: Id, now: Time)
    ensures FirstRecord(upload, r, now).createdAt == Micro(now)
  {
  }

  lemma LapsesRefuse(s: State, t: Id, refusal: Refusal, now: Time)
    requires RecordsOk(s.records, s.claims) && LapsesOk(s.records, s.claims, now)
    ensures Release(s, t, now).claims == s.claims && LapsesOk(Release(s, t, now).records, s.claims, now)
    ensures var s' := RefuseMaterial(s, t, refusal, now); s'.claims == s.claims && LapsesOk(s'.records, s.claims, now)
  {
    hide LapsesOk, Execute, RecordsOk, Refusal.ResponseStatus;
    if t in s.attempts {
      var scope := s.attempts[t].scope;
      LapsesExecute(s.records, s.claims, ReleaseLease(scope, now));
      LapsesExecute(s.records, s.claims, Complete(scope, refusal.ResponseStatus(), ErrorBody(refusal), now));
    }
  }

  lemma LapsesScreenshot(s: State, t: Id, now: Time)
    requires RecordsOk(s.records, s.claims) && LapsesOk(s.records, s.claims, now)
    ensures var s' := FinishScreenshot(s, t, now); s'.claims == s.claims && LapsesOk(s'.records, s.claims, now)
  {
    hide LapsesOk, Execute, RecordsOk, Artifact.Valid, Taken, EncodeArtifact, Replayed, NewRow;
    if t in s.attempts && s.attempts[t].scope in s.records {
      var a := s.attempts[t];
      var row := NewRow(a, RequestScreenshot, s.records[a.scope].createdAt);
      LapsesExecute(s.records, s.claims, Complete(a.scope, 201, ArtifactBody(EncodeArtifact(row)), now));
    }
  }

  lemma LapsesMaterial(s: State, t: Id, outcome: MaterialOutcome, taskId: Id, now: Time)
    requires RecordsOk(s.records, s.claims) && LapsesOk(s.records, s.claims, now)
    ensures var s' := FinishMaterial(s, t, outcome, taskId, now);
            s'.claims == s.claims && LapsesOk(s'.records, s.claims, now)
  {
    hide LapsesOk, Execute, RecordsOk, Artifact.Valid, Taken, NewTask, NewRow, Refusal.ResponseStatus, Replayed, Tell;
    if MaterialProceeds(s, t) {
      var scope := s.attempts[t].scope;
      match outcome
      case Reject(refusal) =>
        LapsesExecute(s.records, s.claims, Complete(scope, refusal.ResponseStatus(), ErrorBody(refusal), now));
      case SameCapture(artifact) =>
        LapsesExecute(s.records, s.claims, Complete(scope, 200, MaterialBody(artifact), now));
        LapsesExecute(s.records, s.claims, ReleaseLease(scope, now));
      case Register =>
        var row := NewRow(s.attempts[t], GuideMaterial, Micro(now));
        LapsesExecute(s.records, s.claims, Complete(scope, 201, MaterialBody(row.id), now));
        LapsesExecute(s.records, s.claims, ReleaseLease(scope, now));
    }
  }

  lemma LapsesExpire(s: State, scope: Scope, taskId: Id, now: Time)
    requires RecordsOk(s.records, s.claims) && LapsesOk(s.records, s.claims, now)
    ensures var s' := ExpireRecord(s, scope, taskId, now); s'.claims == s.claims && LapsesOk(s'.records, s.claims, now)
  {
    if scope in s.records && Expired(s.records[scope], now) {
      assert InOrder(s.records[scope], now) && s.records[scope].Valid();
      hide LapsesOk, RecordsOk, InOrder, Record.Valid, Expired, NewTask;
      ExpiredIsOld(s.records[scope], now, now);
      LapsesForget(s.records, s.claims, scope, now);
    }
  }

  lemma OtherStepsKeepRecords(s: State, e: Event)
    requires !TouchesRecords(e)
    ensures Next(s, e).records == s.records && Next(s, e).claims == s.claims && forall clock :: Clock(clock, e) == clock
  {
    hide Next;
    QuietStep(s, e);
  }

  lemma StepLapses(s: State, clock: Time, e: Event)
    requires Kept(s) && Fair(s, e) && LapsesOk(s.records, s.claims, clock) && clock <= Clock(clock, e)
    ensures LapsesOk(Next(s, e).records, Next(s, e).claims, Clock(clock, e))
  {
    assert RecordsOk(s.records, s.claims);
    assert e.EBeginUpload? ==> e.candidate !in s.used;
    hide Kept, LapsesOk, RecordsOk, Fair, BeginUpload, Release, RefuseMaterial, FinishScreenshot, FinishMaterial,
         ExpireRecord;
    LapsesLater(s.records, s.claims, clock, Clock(clock, e));
    if e.EBeginUpload? {
      LapsesBegin(s, e.attempt, e.scope, e.upload, e.candidate, e.now);
    } else if e.ERelease? {
      LapsesRefuse(s, e.attempt, NotFound, e.now);
    } else if e.ERefuseMaterial? {
      LapsesRefuse(s, e.attempt, e.refusal, e.now);
    } else if e.EFinishScreenshot? {
      LapsesScreenshot(s, e.attempt, e.now);
    } else if e.EFinishMaterial? {
      LapsesMaterial(s, e.attempt, e.outcome, e.taskId, e.now);
    } else if e.EExpireRecord? {
      LapsesExpire(s, e.scope, e.taskId, e.now);
    } else {
      hide Next;
      OtherStepsKeepRecords(s, e);
    }
  }

  /** Within a day of its claim a material upload still finds its own artifact ID in the record. */
  lemma OnTimeIsFenced(s: State, clock: Time, e: Event)
    requires Kept(s) && LapsesOk(s.records, s.claims, clock) && clock <= Clock(clock, e) && OnTime(s, e)
    ensures Fenced(s, e)
  {
    if e.EFinishMaterial? && MaterialProceeds(s, e.attempt) {
      MaterialAttempt(s, e.attempt);
    }
  }

  lemma {:induction false} TimelyRunKeeps(s: State, clock: Time, run: seq<Event>)
    requires Inv(s) && LapsesOk(s.records, s.claims, clock) && TimelyRun(s, clock, run)
    ensures Allowed(s, run) && Inv(Run(s, run))
    decreases |run|
  {
    hide Kept, Tidy, LapsesOk, Next, Fair, Fenced, OnTime, Clock;
    if run != [] {
      OnTimeIsFenced(s, clock, run[0]);
      StepKeeps(s, run[0]);
      StepLapses(s, clock, run[0]);
      TimelyRunKeeps(Next(s, run[0]), Clock(clock, run[0]), run[1..]);
    }
  }

  /** So with uploads that take less than a day, whatever else interleaves, every available artifact has its
      object. */
  lemma TimelyUploadsAreSafe(clock: Time, run: seq<Event>, id: Id)
    requires TimelyRun(EMPTY, clock, run) && Available(Run(EMPTY, run), id)
    ensures Run(EMPTY, run).artifacts[id].storageKey in Run(EMPTY, run).objects
  {
    EmptyInv();
    TimelyRunKeeps(EMPTY, clock, run);
  }
}
