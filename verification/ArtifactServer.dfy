/** The server's own form of the artifact protocol: methods that change the tables and the bucket in place,
    each proved to take exactly the steps that the invariant is proved about. */
module ArtifactServer {
  import opened Common
  import opened Entities
  import opened Idempotency
  import opened ArtifactStore
  import opened ArtifactInvariant
  import opened ArtifactRuns

  /** What storage answers a PUT. */
  datatype PutResult = PutOk | PutError(applied: bool, late: bool, definite: bool)

  class Server {
    var records: Records
    var artifacts: map<Id, Artifact>
    var tasks: map<Key, Task>
    var pinned: set<Id>
    var strayed: set<Id>
    var readers: map<Id, Id>
    var materials: set<Id>
    var objects: map<Key, Picture>
    var latePuts: set<(Key, Picture)>
    var lateDeletes: set<Key>
    var attempts: map<Id, Attempt>
    var deletions: map<Id, Deletion>
    ghost var used: set<Id>
    ghost var claims: Claims
    ghost var created: seq<Artifact>
    ghost var answers: set<Answer>
    ghost var told: set<Told>

    ghost function View(): State
      reads this
    {
      State(records, artifacts, tasks, pinned, strayed, readers, materials, objects, latePuts, lateDeletes, attempts,
            deletions, used, claims, created, answers, told)
    }

    constructor ()
      ensures View() == EMPTY
    {
      records, artifacts, tasks, pinned, strayed, readers, materials := map[], map[], map[], {}, {}, map[], {};
      objects, latePuts, lateDeletes, attempts, deletions := map[], {}, {}, map[], map[];
      used, claims, created, answers, told := {}, map[], [], {}, {};
    }

    // ------------------------------------------------------------------- statements on records

    method TryCreateIdempotency(scope: Scope, proposed: Record<Upload, Body>) returns (inserted: bool)
      modifies `records
      ensures inserted == (scope !in old(records))
      ensures records == if inserted then old(records)[scope := ToRow(proposed)] else old(records)
    {
      inserted := scope !in records;
      if inserted {
        records := records[scope := ToRow(proposed)];
      }
    }

    method TakeOverIdempotency(scope: Scope, resource: Option<Id>, now: Time)
      returns (row: Option<Record<Upload, Body>>)
      modifies `records
      ensures records == Execute(old(records), TakeOverLease(scope, resource, now))
      ensures row == if LeaseOver(old(records), scope, now) then Some(records[scope]) else None
    {
      row := None;
      if LeaseOver(records, scope, now) {
        var r := records[scope].(lease := Some(Micro(now + LEASE)));
        if r.resource.None? {
          r := r.(resource := resource);
        }
        records := records[scope := r];
        row := Some(r);
      }
    }

    method CompleteIdempotency(scope: Scope, status: int, body: Body, now: Time) returns (completed: bool)
      modifies `records
      ensures records == Execute(old(records), Complete(scope, status, body, now))
      ensures completed <==> scope in old(records) && old(records)[scope].status == InProgress
    {
      completed := scope in records && records[scope].status == InProgress;
      if completed {
        records := records[scope := records[scope].(
          status := Completed, responseStatus := Some(status), body := Some(body), lease := None,
          completedAt := Some(Micro(now)), expiresAt := Some(Micro(now) + RETENTION))];
      }
    }

    method ReleaseIdempotency(scope: Scope, now: Time)
      modifies `records
      ensures records == Execute(old(records), ReleaseLease(scope, now))
    {
      if scope in records && records[scope].status == InProgress {
        records := records[scope := records[scope].(lease := Some(Micro(now)))];
      }
    }

    /** Insert if absent, lock, evaluate and take over, one statement after the other. */
    method AcquireIdempotency(scope: Scope, hash: Upload, resource: Option<Id>, now: Time)
      returns (claim: Claim<Upload, Body>)
      modifies `records
      ensures (records, claim) == Acquire(old(records), scope, hash, resource, now)
    {
      var inserted := TryCreateIdempotency(scope, NewInProgress(hash, resource, now));
      var record := records[scope];
      if inserted {
        return Claimed(record, Start);
      }
      var verdict := Evaluate(Some(record), hash, now);
      if !verdict.Decide? {
        return Refused(verdict);
      }
      if verdict.decision != TakeOver {
        return Claimed(record, verdict.decision);
      }
      var row := TakeOverIdempotency(scope, resource, now);
      if row.None? {
        return Refused(RequestInProgress);
      }
      return Claimed(row.value, TakeOver);
    }

    // -------------------------------------------------------------------------------- uploads

    /** What an upload's caller is told. */
    method BeginUpload(attempt: Id, scope: Scope, upload: Upload, candidate: Id, now: Time)
      returns (claim: Claim<Upload, Body>, replay: Option<Artifact>)
      modifies this
      ensures View() == ArtifactStore.BeginUpload(old(View()), attempt, scope, upload, candidate, now)
      ensures claim == Acquire(old(records), scope, upload, Some(candidate), now).1
      ensures replay == if claim.Claimed? && claim.decision == Replay && claim.record.resource.Some?
                        then StoredArtifact(claim.record) else None
      ensures replay.Some? ==> Answer(scope, claim.record.resource.value, replay.value) in answers
      ensures claim.Claimed? && claim.decision == Replay && TellsOfMaterial(claim.record) ==>
                Told(scope, claim.record.resource.value, claim.record.responseStatus.value, claim.record.body.value.artifact)
                in told
    {
      hide Acquire, Replayed, ReplayAnswer, StoredArtifact;
      replay := None;
      AcquireKeeps(records, scope, upload, Some(candidate), now);
      used := used + {candidate};
      claim := AcquireIdempotency(scope, upload, Some(candidate), now);
      if claim.Refused? {
        return;
      }
      if claim.decision == Replay {
        replay := ReplayArtifact(scope, claim.record);
        return;
      }
      if claim.record.resource.None? {
        return;
      }
      var resource := claim.record.resource.value;
      attempts := attempts[attempt := Attempt(Putting, scope, upload, resource)];
      if claim.decision == Start {
        claims := claims[resource := FirstClaim(scope, upload, claim.record.createdAt)];
      }
    }

    method ReplayArtifact(scope: Scope, record: Record<Upload, Body>) returns (replay: Option<Artifact>)
      modifies `answers, `told
      ensures View() == Replayed(old(View()), scope, record)
      ensures replay == if record.resource.Some? then StoredArtifact(record) else None
      ensures replay.Some? ==> Answer(scope, record.resource.value, replay.value) in answers
      ensures TellsOfMaterial(record) ==>
                Told(scope, record.resource.value, record.responseStatus.value, record.body.value.artifact) in told
    {
      replay := None;
      told := told + MaterialAnswer(scope, record);
      if record.responseStatus == Some(201) && record.body.Some? && record.body.value.ArtifactBody? {
        var artifact := DecodeArtifact(record.body.value.json);
        if artifact.Some? && record.resource.Some? {
          replay := artifact;
          answers := answers + {Answer(scope, record.resource.value, artifact.value)};
        }
      }
    }

    method CreateArtifactRow(row: Artifact) returns (ok: bool)
      modifies `artifacts, `created
      ensures ok == (row.Valid() && !Taken(old(artifacts), row))
      ensures artifacts == if ok then old(artifacts)[row.id := row] else old(artifacts)
      ensures created == if ok then old(created) + [row] else old(created)
    {
      ok := row.Valid() && row.id !in artifacts
            && forall id | id in artifacts :: artifacts[id].storageKey != row.storageKey;
      if ok {
        artifacts := artifacts[row.id := row];
        created := created + [row];
      }
    }

    /** Inserts the row and stores it as the record's answer. */
    method RegisterScreenshot(a: Attempt, row: Artifact, now: Time) returns (reply: Option<Artifact>)
      modifies `records, `artifacts, `created, `answers
      ensures reply == if row.Valid() && !Taken(old(artifacts), row) then Some(row) else None
      ensures View() == if reply.None? then old(View()) else old(View()).(
                artifacts := old(artifacts)[row.id := row],
                records := Execute(old(records), Complete(a.scope, 201, ArtifactBody(EncodeArtifact(row)), now)),
                created := old(created) + [row], answers := old(answers) + {Answer(a.scope, row.id, row)})
    {
      hide Artifact.Valid, EncodeArtifact, Taken, Execute;
      reply := None;
      var ok := CreateArtifactRow(row);
      if ok {
        var _ := CompleteIdempotency(a.scope, 201, ArtifactBody(EncodeArtifact(row)), now);
        answers := answers + {Answer(a.scope, row.id, row)};
        reply := Some(row);
      }
    }

    /** Last transaction of a screenshot upload. Its caller is given the row it wrote; or what its record already
        answers; or an error, and then no table has changed. */
    method FinishScreenshot(attempt: Id, now: Time) returns (reply: Option<Artifact>)
      requires attempt in attempts && attempts[attempt].phase == Stored && attempts[attempt].scope.path.ArtifactUpload?
      modifies this
      ensures View() == ArtifactStore.FinishScreenshot(old(View()), attempt, now)
      ensures |created| > |old(created)| ==> reply == Some(created[|created| - 1]) && created == old(created) + [reply.value]
      ensures |created| > |old(created)| <==> CanCreate(old(View()), old(attempts)[attempt])
      ensures var a := old(attempts)[attempt];
              reply.Some? && |created| > |old(created)| ==>
                reply.value == NewRow(a, RequestScreenshot, old(records)[a.scope].createdAt)
      ensures created == old(created) ==>
                artifacts == old(artifacts) && records == old(records) && tasks == old(tasks) && objects == old(objects)
      ensures var a := old(attempts)[attempt];
              a.scope in old(records) && old(records)[a.scope].hash == a.upload
              && old(records)[a.scope].status == Completed && old(records)[a.scope].resource.Some? ==>
                reply == StoredArtifact(old(records)[a.scope])
      ensures reply.Some? && created == old(created) ==>
                old(attempts)[attempt].scope in old(records) && old(records)[old(attempts)[attempt].scope].status == Completed
      ensures var scope := old(attempts)[attempt].scope;
              reply.Some? ==> scope in old(records) && old(records)[scope].resource.Some?
                              && Answer(scope, old(records)[scope].resource.value, reply.value) in answers
    {
      hide Artifact.Valid, EncodeArtifact, StoredArtifact, Taken, Execute, NewRow, Replayed, ReplayAnswer;
      reply := None;
      var a := attempts[attempt];
      attempts := attempts - {attempt};
      if a.scope !in records {
        return;
      }
      var current := records[a.scope];
      if current.hash != a.upload {
        return;
      }
      if current.status == Completed {
        reply := ReplayArtifact(a.scope, current);
        return;
      }
      if current.resource != Some(a.resource) {
        return;
      }
      OwnId(a, RequestScreenshot, current.createdAt);
      reply := RegisterScreenshot(a, NewRow(a, RequestScreenshot, current.createdAt), now);
    }

    /** Reserves the uploaded object for deletion and answers the key with something else than a new image. */
    method AnswerMaterial(a: Attempt, status: int, body: Body, taskId: Id, now: Time)
      modifies `records, `tasks
      ensures View() == Reserve(old(View()), KeyOf(a.scope, a.resource), NewTask(taskId, None, now))
                        .(records := Execute(old(records), Complete(a.scope, status, body, now)))
    {
      CreateDeletionTask(KeyOf(a.scope, a.resource), NewTask(taskId, None, now));
      var _ := CompleteIdempotency(a.scope, status, body, now);
    }

    method RegisterMaterial(a: Attempt, now: Time) returns (ok: bool)
      modifies `records, `artifacts, `materials, `created
      ensures var row := NewRow(a, GuideMaterial, Micro(now));
              && ok == (row.Valid() && !Taken(old(artifacts), row))
              && View() == if !ok then old(View()) else old(View()).(
                   artifacts := old(artifacts)[row.id := row], materials := old(materials) + {row.id},
                   records := Execute(old(records), Complete(a.scope, 201, MaterialBody(row.id), now)),
                   created := old(created) + [row])
    {
      hide Artifact.Valid, Taken, NewRow, Execute;
      var row := NewRow(a, GuideMaterial, Micro(now));
      ok := CreateArtifactRow(row);
      if ok {
        materials := materials + {row.id};
        var _ := CompleteIdempotency(a.scope, 201, MaterialBody(row.id), now);
      }
    }

    /** Answers a record in progress, as the batch and session checks decided. */
    method AnswerUpload(a: Attempt, outcome: MaterialOutcome, taskId: Id, now: Time) returns (status: Option<int>)
      requires a.scope in records
      modifies `records, `tasks, `artifacts, `materials, `created, `told
      ensures View() == ArtifactStore.AnswerUpload(old(View()), a, outcome, taskId, now)
      ensures status == UploadReply(old(View()), a, outcome, now)
      ensures attempts == old(attempts) && objects == old(objects)
      ensures outcome.Reject? ==> status == Some(outcome.refusal.ResponseStatus())
      ensures !outcome.Reject? && !a.upload.fits ==> status == Some(400)
      ensures outcome.SameCapture? && a.upload.fits ==> status == Some(200)
      ensures outcome.Register? && a.upload.fits ==>
                var row := NewRow(a, GuideMaterial, Micro(now));
                status == if row.Valid() && !Taken(old(artifacts), row) then Some(201) else None
      ensures old(records)[a.scope].resource.Some? && status == Some(200) && outcome.SameCapture? ==>
                Told(a.scope, old(records)[a.scope].resource.value, 200, outcome.artifact) in told
      ensures old(records)[a.scope].resource.Some? && status == Some(201) && outcome.Register? ==>
                Told(a.scope, old(records)[a.scope].resource.value, 201, a.resource) in told
      ensures Dropped(a, outcome) ==>
                && KeyOf(a.scope, a.resource) in tasks && artifacts == old(artifacts) && materials == old(materials)
                && created == old(created)
      ensures !Dropped(a, outcome) ==>
                && tasks == old(tasks)
                && if status.None? then View() == old(View())
                   else Registered(old(View()), View(), a, NewRow(a, GuideMaterial, Micro(now)))
    {
      hide Artifact.Valid, Taken, NewRow, Refusal.ResponseStatus, Execute, Reserve;
      if outcome.Reject? {
        AnswerMaterial(a, outcome.refusal.ResponseStatus(), ErrorBody(outcome.refusal), taskId, now);
        return Some(outcome.refusal.ResponseStatus());
      }
      if !a.upload.fits {
        CreateDeletionTask(KeyOf(a.scope, a.resource), NewTask(taskId, None, now));
        ReleaseIdempotency(a.scope, now);
        return Some(400);
      }
      if outcome.SameCapture? {
        ghost var earlier := Tell(View(), a.scope, 200, outcome.artifact);
        AnswerMaterial(a, 200, MaterialBody(outcome.artifact), taskId, now);
        told := told + earlier;
        return Some(200);
      }
      ghost var telling := Tell(View(), a.scope, 201, NewRow(a, GuideMaterial, Micro(now)).id);
      OwnId(a, GuideMaterial, Micro(now));
      var ok := RegisterMaterial(a, now);
      if !ok {
        return None;
      }
      told := told + telling;
      return Some(201);
    }

    /** Last transaction of a material upload, after the batch and session checks decided `outcome`. */
    method FinishMaterial(attempt: Id, outcome: MaterialOutcome, taskId: Id, now: Time) returns (status: Option<int>)
      requires attempt in attempts && attempts[attempt].phase == Stored && attempts[attempt].scope.path.MaterialUpload?
      modifies this
      ensures View() == ArtifactStore.FinishMaterial(old(View()), attempt, outcome, taskId, now)
      ensures status == MaterialReply(old(View()), attempt, outcome, now)
      ensures attempts == old(attempts) - {attempt} && objects == old(objects)
      ensures var a := old(attempts)[attempt];
              if a.scope in old(records) && old(records)[a.scope].hash == a.upload
                 && old(records)[a.scope].status == InProgress
              then
                && (Dropped(a, outcome) ==>
                      && KeyOf(a.scope, a.resource) in tasks && artifacts == old(artifacts)
                      && materials == old(materials) && created == old(created))
                && (!Dropped(a, outcome) && status.Some? ==>
                      tasks == old(tasks) && Registered(old(View()), View(), a, NewRow(a, GuideMaterial, Micro(now))))
                && (!Dropped(a, outcome) && status.None? ==>
                      artifacts == old(artifacts) && tasks == old(tasks) && records == old(records))
              else
                && artifacts == old(artifacts) && tasks == old(tasks) && records == old(records)
                && status == if a.scope in old(records) && old(records)[a.scope].hash == a.upload
                             then old(records)[a.scope].responseStatus else None
    {
      hide UploadReply, ArtifactStore.AnswerUpload, Replayed, ReplayAnswer;
      status := None;
      var a := attempts[attempt];
      attempts, used := attempts - {attempt}, used + {taskId};
      if a.scope !in records || records[a.scope].hash != a.upload {
        return;
      }
      if records[a.scope].status == Completed {
        status := records[a.scope].responseStatus;
        var _ := ReplayArtifact(a.scope, records[a.scope]);
      } else {
        SameReply(old(View()), View(), a, outcome, now);
        status := AnswerUpload(a, outcome, taskId, now);
      }
    }

    /** Storage answers that the object is stored. */
    method PutStored(attempt: Id)
      requires attempt in attempts && attempts[attempt].phase == Putting
      modifies `objects, `attempts
      ensures View() == PutSucceeds(old(View()), attempt)
      ensures attempts == old(attempts)[attempt := old(attempts)[attempt].(phase := Stored)]
      ensures records == old(records)
    {
      var a := attempts[attempt];
      objects := objects[KeyOf(a.scope, a.resource) := a.upload.picture];
      attempts := attempts[attempt := a.(phase := Stored)];
    }

    /** A PUT reports an error, whatever it did or may still do. */
    method PutReported(attempt: Id, applied: bool, late: bool, definite: bool)
      requires attempt in attempts && attempts[attempt].phase == Putting
      modifies `objects, `latePuts, `attempts
      ensures View() == PutFails(old(View()), attempt, applied, late, definite)
    {
      var a := attempts[attempt];
      var key := KeyOf(a.scope, a.resource);
      if applied {
        objects := objects[key := a.upload.picture];
      }
      if late {
        latePuts := latePuts + {(key, a.upload.picture)};
      }
      if definite {
        attempts := attempts[attempt := a.(phase := Releasing)];
      } else {
        attempts := attempts - {attempt};
      }
    }

    method ReleaseUpload(attempt: Id, now: Time)
      requires attempt in attempts && attempts[attempt].phase == Releasing
      modifies `attempts, `records
      ensures View() == Release(old(View()), attempt, now)
    {
      hide Execute;
      ReleaseIdempotency(attempts[attempt].scope, now);
      attempts := attempts - {attempt};
    }

    /** Storage reports an error. After a definite failure the lease is over at once, so the caller can try again;
        after an unknown outcome it runs on, since the object may still arrive. */
    method PutFailed(attempt: Id, applied: bool, late: bool, definite: bool, now: Time)
      requires attempt in attempts && attempts[attempt].phase == Putting
      modifies `objects, `latePuts, `attempts, `records
      ensures View() == if definite then Release(PutFails(old(View()), attempt, applied, late, true), attempt, now)
                        else PutFails(old(View()), attempt, applied, late, false)
      ensures attempts == old(attempts) - {attempt} && artifacts == old(artifacts) && tasks == old(tasks)
      ensures var scope := old(attempts)[attempt].scope;
              if definite && scope in old(records) && old(records)[scope].status == InProgress
              then records == old(records)[scope := old(records)[scope].(lease := Some(Micro(now)))]
              else records == old(records)
    {
      PutReported(attempt, applied, late, definite);
      if definite {
        ReleaseUpload(attempt, now);
      }
    }

    /** The first transaction: who may go on to the PUT, and what everyone else is answered. */
    method ClaimUpload(attempt: Id, scope: Scope, upload: Upload, candidate: Id, now: Time)
      returns (started: bool, reply: Option<Artifact>)
      requires Inv(View()) && Fair(View(), EBeginUpload(attempt, scope, upload, candidate, now))
      requires scope.path.ArtifactUpload?
      modifies this
      ensures Inv(View()) && View() == ArtifactStore.BeginUpload(old(View()), attempt, scope, upload, candidate, now)
      ensures started <==> Claimable(old(records), scope, upload, now)
      ensures started ==>
                && reply.None? && attempt in attempts
                && attempts[attempt]
                   == Attempt(Putting, scope, upload, RowToBe(old(records), scope, upload, candidate, now).id)
      ensures scope in old(records) && old(records)[scope].hash == upload && old(records)[scope].status == Completed ==>
                && reply.Some? && reply.value in created && reply == StoredArtifact(old(records)[scope])
                && records == old(records) && artifacts == old(artifacts) && objects == old(objects)
      ensures !started && (old(records)[scope].hash != upload || old(records)[scope].status == InProgress) ==>
                reply.None? && View() == old(View()).(used := old(used) + {candidate})
    {
      ghost var s := View();
      BeginUploadKeeps(s, attempt, scope, upload, candidate, now);
      ClaimKinds(s, attempt, scope, upload, candidate, now);
      hide Inv, ArtifactStore.BeginUpload, Acquire, Claimable, RowToBe, StoredArtifact;
      var claim, replay := BeginUpload(attempt, scope, upload, candidate, now);
      started := claim.Claimed? && claim.decision != Replay && claim.record.resource.Some?;
      reply := replay;
    }

    /** A screenshot upload from end to end, when nothing comes in between: a free or abandoned key ends with the
        image, an answered key gets the answer it was given, and any other key changes nothing. */
    method CreateArtifact(
      attempt: Id, scope: Scope, upload: Upload, candidate: Id, put: PutResult, begun: Time, released: Time, finished: Time)
      returns (reply: Option<Artifact>)
      requires Inv(View()) && Fair(View(), EBeginUpload(attempt, scope, upload, candidate, begun))
      requires scope.path.ArtifactUpload?
      modifies this
      ensures Inv(View())
      ensures var row := RowToBe(old(records), scope, upload, candidate, begun);
              Claimable(old(records), scope, upload, begun) && put.PutOk? && row.Valid() ==>
                reply == Some(row) && Delivered(View(), scope, row, upload.picture)
      ensures Claimable(old(records), scope, upload, begun) && put.PutError? ==>
                && reply.None? && artifacts == old(artifacts)
                && scope in records && records[scope].status == InProgress
                && records[scope].lease == Some(Micro(if put.definite then released else begun + LEASE))
      ensures scope in old(records) && old(records)[scope].hash == upload && old(records)[scope].status == Completed ==>
                && reply.Some? && reply.value in created && reply == StoredArtifact(old(records)[scope])
                && records == old(records) && artifacts == old(artifacts) && objects == old(objects)
      ensures !Claimable(old(records), scope, upload, begun)
              && (old(records)[scope].hash != upload || old(records)[scope].status == InProgress) ==>
                reply.None? && View() == old(View()).(used := old(used) + {candidate})
    {
      hide Inv, ArtifactStore.BeginUpload, ArtifactStore.FinishScreenshot, PutSucceeds, PutFails, Release, Claimable, RowToBe,
           StoredArtifact, Delivered, CanCreate;
      var started;
      started, reply := ClaimUpload(attempt, scope, upload, candidate, begun);
      if started {
        match put
        case PutOk =>
          PutStored(attempt);
          reply := FinishScreenshot(attempt, finished);
          UploadReplies(old(View()), attempt, scope, upload, candidate, begun, finished);
        case PutError(applied, late, definite) =>
          PutFailed(attempt, applied, late, definite, released);
          FailedPutKeeps(old(View()), attempt, scope, upload, candidate, begun, put, released);
      }
    }

    // ------------------------------------------------------------------------------- cleanup

    method CreateDeletionTask(key: Key, task: Task)
      modifies `tasks
      ensures View() == Reserve(old(View()), key, task)
      ensures tasks == if key in old(tasks) then old(tasks) else old(tasks)[key := task]
    {
      if key !in tasks {
        tasks := tasks[key := task];
      }
    }

    /** The re-checks of one listed image: a screenshot a day old that nothing refers to and that has no task. */
    method ReserveIfStale(id: Id, taskId: Id, now: Time) returns (asked: bool)
      requires id in artifacts
      modifies `tasks, `used
      ensures asked == Stale(old(View()), id, now)
      ensures asked <==> artifacts[id].purpose == RequestScreenshot && artifacts[id].createdAt <= Micro(now - DAY)
                         && id !in pinned && id !in strayed && id !in materials
                         && artifacts[id].storageKey !in old(tasks)
      ensures tasks == if asked
                       then old(tasks)[artifacts[id].storageKey := Task(taskId, Some(id), false, 0, Micro(now), Micro(now))]
                       else old(tasks)
      ensures View() == ReserveStale(old(View()), id, taskId, now)
    {
      var row := artifacts[id];
      var referenced := id in pinned || id in strayed || id in materials;
      asked := row.purpose == RequestScreenshot && row.createdAt <= Micro(now - DAY) && !referenced
               && row.storageKey !in tasks;
      if asked {
        used := used + {taskId};
        CreateDeletionTask(row.storageKey, NewTask(taskId, Some(id), now));
      }
    }

    /** The stale images that cleanup's query locked: each that is neither referenced nor already reserved
        gets a task. `taskIds` supplies the IDs that may be generated. */
    method ReserveStaleArtifacts(stale: seq<Id>, taskIds: seq<Id>, now: Time) returns (scheduled: nat)
      requires |taskIds| == |stale| && forall id :: id in stale ==> id in artifacts
      modifies `tasks, `used
      ensures View() == Run(old(View()), StaleEvents(stale, taskIds, now))
      ensures scheduled == Reservations(old(View()), StaleEvents(stale, taskIds, now))
    {
      hide Run, Reservations, Stale, ReserveStale;
      ghost var s0, events := View(), StaleEvents(stale, taskIds, now);
      scheduled := 0;
      RunNothing(s0);
      for i := 0 to |stale|
        invariant View() == Run(s0, events[..i]) && artifacts == old(artifacts)
        invariant scheduled == Reservations(s0, events[..i])
      {
        RunSnoc(s0, events, i);
        var asked := ReserveIfStale(stale[i], taskIds[i], now);
        if asked {
          scheduled := scheduled + 1;
        }
      }
      assert events[..|stale|] == events;
    }

    method DeleteIdempotency(scope: Scope)
      requires scope in records
      modifies `records
      ensures records == old(records) - {scope} && |records| == |old(records)| - 1
    {
      ForgetCount(records, scope);
      records := records - {scope};
    }

    /** An abandoned upload leaves a task for its object. */
    method ReserveAbandoned(scope: Scope, record: Record<Upload, Body>, taskId: Id, now: Time) returns (asked: bool)
      modifies `tasks, `used
      ensures asked == Abandoned(scope, record)
      ensures asked ==> KeyOf(scope, record.resource.value) in tasks
      ensures forall k :: k in tasks && k !in old(tasks) ==> tasks[k].artifact.None?
      ensures View() == if asked then Reserve(old(View()).(used := old(used) + {taskId}),
                                              KeyOf(scope, record.resource.value), NewTask(taskId, None, now))
                        else old(View())
    {
      asked := record.status == InProgress && record.resource.Some? && IsUploadPath(scope.path);
      if asked {
        used := used + {taskId};
        CreateDeletionTask(KeyOf(scope, record.resource.value), NewTask(taskId, None, now));
      }
    }

    method DeleteExpiredRecord(scope: Scope, taskId: Id, now: Time) returns (asked: bool, deleted: bool)
      modifies `records, `tasks, `used
      ensures View() == ExpireRecord(old(View()), scope, taskId, now)
      ensures asked == AsksTask(old(View()), EExpireRecord(scope, taskId, now))
      ensures |records| == |old(records)| - if deleted then 1 else 0
      ensures deleted <==> scope in old(records) && Expired(old(records)[scope], now)
      ensures records == if deleted then old(records) - {scope} else old(records)
      ensures asked <==>
                && deleted && old(records)[scope].status == InProgress && old(records)[scope].resource.Some?
                && (scope.path.ArtifactUpload? || scope.path.MaterialUpload?)
      ensures asked ==> Key(scope.actor, old(records)[scope].resource.value) in tasks
      ensures forall k :: k in tasks && k !in old(tasks) ==> asked && tasks[k].artifact.None?
    {
      hide Expired;
      asked := false;
      deleted := scope in records && Expired(records[scope], now);
      if deleted {
        var record := records[scope];
        DeleteIdempotency(scope);
        asked := ReserveAbandoned(scope, record, taskId, now);
      }
    }

    /** The expired records that cleanup's query locked: each goes, and an abandoned upload leaves a task for
        its object. */
    method DeleteExpiredRecords(expired: seq<Scope>, taskIds: seq<Id>, now: Time) returns (scheduled: nat, deleted: nat)
      requires |taskIds| == |expired|
      modifies `records, `tasks, `used
      ensures View() == Run(old(View()), ExpiryEvents(expired, taskIds, now))
      ensures scheduled == Reservations(old(View()), ExpiryEvents(expired, taskIds, now))
      ensures deleted == |old(records)| - |records|
    {
      hide Run, Reservations;
      ghost var s0, events := View(), ExpiryEvents(expired, taskIds, now);
      scheduled, deleted := 0, 0;
      RunNothing(s0);
      for i := 0 to |expired|
        invariant View() == Run(s0, events[..i])
        invariant scheduled == Reservations(s0, events[..i])
        invariant deleted == |s0.records| - |records|
      {
        RunSnoc(s0, events, i);
        var asked, gone := DeleteExpiredRecord(expired[i], taskIds[i], now);
        if asked {
          scheduled := scheduled + 1;
        }
        if gone {
          deleted := deleted + 1;
        }
      }
      assert events[..|expired|] == events;
    }

    /** One cleanup transaction. */
    method ScheduleArtifactCleanup(stale: seq<Id>, staleIds: seq<Id>, expired: seq<Scope>, expiredIds: seq<Id>, now: Time)
      returns (scheduled: nat, deleted: nat)
      requires |staleIds| == |stale| && |expiredIds| == |expired|
      requires forall id :: id in stale ==> id in artifacts
      modifies `records, `tasks, `used
      ensures View() == Run(old(View()), StaleEvents(stale, staleIds, now) + ExpiryEvents(expired, expiredIds, now))
      ensures scheduled
              == Reservations(old(View()), StaleEvents(stale, staleIds, now) + ExpiryEvents(expired, expiredIds, now))
      ensures deleted == |old(records)| - |records|
    {
      var images := ReserveStaleArtifacts(stale, staleIds, now);
      var uploads;
      uploads, deleted := DeleteExpiredRecords(expired, expiredIds, now);
      hide Run, Reservations;
      RunConcat(old(View()), StaleEvents(stale, staleIds, now), ExpiryEvents(expired, expiredIds, now));
      ReservationsConcat(old(View()), StaleEvents(stale, staleIds, now), ExpiryEvents(expired, expiredIds, now));
      scheduled := images + uploads;
    }

    // ------------------------------------------------------------------------------ deletion

    method RecoverArtifactDeletionTasks() returns (recovered: nat)
      modifies `tasks
      ensures View() == RecoverTasks(old(View()))
      ensures tasks.Keys == old(tasks).Keys
      ensures forall k :: k in tasks ==> !tasks[k].running && tasks[k] == old(tasks)[k].(running := false)
      ensures recovered == |set k | k in old(tasks) && old(tasks)[k].running|
    {
      recovered := |set k | k in tasks && tasks[k].running|;
      tasks := map k | k in tasks :: tasks[k].(running := false);
    }

    /** First transaction: lock a due task and mark it running. */
    method MarkNextRunning(worker: Id, key: Key, now: Time) returns (found: bool)
      requires worker !in deletions
      modifies `tasks, `deletions
      ensures View() == MarkRunning(old(View()), worker, key, now)
      ensures found <==> key in old(tasks) && !old(tasks)[key].running && old(tasks)[key].nextAttemptAt <= Micro(now)
      ensures found ==>
                && tasks == old(tasks)[key := old(tasks)[key].(running := true, attempt := old(tasks)[key].attempt + 1)]
                && deletions == old(deletions)[worker := Deletion(key, tasks[key], Marked)]
      ensures !found ==> View() == old(View())
    {
      found := key in tasks && !tasks[key].running && tasks[key].nextAttemptAt <= Micro(now);
      if found {
        var task := tasks[key].(running := true, attempt := tasks[key].attempt + 1);
        tasks := tasks[key := task];
        deletions := deletions[worker := Deletion(key, task, Marked)];
      }
    }

    method EraseObject(worker: Id, ok: bool, applied: bool, late: bool)
      requires worker in deletions && deletions[worker].erasure == Marked
      modifies this
      ensures View() == if ok then EraseSucceeds(old(View()), worker) else EraseFails(old(View()), worker, applied, late)
      ensures var d := old(deletions)[worker];
              && deletions == old(deletions)[worker := d.(erasure := if ok then Erased else Failed)]
              && objects == (if ok || applied then old(objects) - {d.key} else old(objects))
              && (!ok && late ==> d.key in lateDeletes) && tasks == old(tasks) && artifacts == old(artifacts)
    {
      var d := deletions[worker];
      if ok || applied {
        objects := objects - {d.key};
      }
      if !ok && late {
        lateDeletes := lateDeletes + {d.key};
      }
      deletions := deletions[worker := d.(erasure := if ok then Erased else Failed)];
    }

    /** The DELETE of the row meets the foreign keys; whether they let it through. */
    method DeleteArtifact(id: Id) returns (ok: bool)
      modifies `artifacts
      ensures ok == !Referenced(old(View()), id)
      ensures artifacts == if ok then old(artifacts) - {id} else old(artifacts)
    {
      ok := !(id in pinned || id in strayed || id in materials);
      if ok {
        artifacts := artifacts - {id};
      }
    }

    method PutTaskBack(worker: Id, now: Time)
      requires worker in deletions && deletions[worker].erasure != Marked
      modifies `tasks, `deletions
      ensures View() == Retry(old(View()), worker, now)
      ensures tasks.Keys == old(tasks).Keys && artifacts == old(artifacts)
      ensures var task := old(deletions)[worker].task;
              forall k :: k in tasks ==>
                tasks[k] == if old(tasks)[k].id == task.id && old(tasks)[k].running
                            then old(tasks)[k].(running := false, nextAttemptAt := Micro(now + RetryDelay(task.attempt)))
                            else old(tasks)[k]
    {
      var d := deletions[worker];
      tasks := RetryTask(tasks, d.task.id, now + RetryDelay(d.task.attempt));
      deletions := deletions - {worker};
    }

    /** Last transaction of a deletion: the row goes, then the task. */
    method DeleteRowAndTask(worker: Id) returns (ok: bool)
      requires worker in deletions && deletions[worker].erasure == Erased
      modifies `artifacts, `tasks, `deletions
      ensures ok == !DeleteRefused(old(View()), worker)
      ensures View() == FinishDeletion(old(View()), worker)
    {
      hide DeleteTask;
      var d := deletions[worker];
      ok := true;
      if d.task.artifact.Some? {
        ok := DeleteArtifact(d.task.artifact.value);
      }
      if ok {
        tasks := DeleteTask(tasks, d.task.id);
        deletions := deletions - {worker};
      }
    }

    /** After a failed DELETE of the object, or if the last transaction fails (a foreign key refuses the row's
        DELETE, or the database does otherwise), the task is put back. */
    method FinishArtifactDeletion(worker: Id, databaseFails: bool, now: Time) returns (done: bool)
      requires worker in deletions && deletions[worker].erasure != Marked
      modifies this
      ensures done == (old(deletions)[worker].erasure == Erased && !databaseFails && !DeleteRefused(old(View()), worker))
      ensures View() == if done then FinishDeletion(old(View()), worker) else Retry(old(View()), worker, now)
    {
      hide Retry, DeleteRefused;
      done := false;
      if deletions[worker].erasure == Erased && !databaseFails {
        done := DeleteRowAndTask(worker);
      }
      if !done {
        PutTaskBack(worker, now);
      }
    }
  }

  ghost function StaleEvents(stale: seq<Id>, taskIds: seq<Id>, now: Time): (events: seq<Event>)
    requires |taskIds| == |stale|
    ensures |events| == |stale| && forall i :: 0 <= i < |stale| ==> events[i] == EReserveStale(stale[i], taskIds[i], now)
  {
    seq(|stale|, i requires 0 <= i < |stale| => EReserveStale(stale[i], taskIds[i], now))
  }

  ghost function ExpiryEvents(expired: seq<Scope>, taskIds: seq<Id>, now: Time): (events: seq<Event>)
    requires |taskIds| == |expired|
    ensures |events| == |expired|
    ensures forall i :: 0 <= i < |expired| ==> events[i] == EExpireRecord(expired[i], taskIds[i], now)
  {
    seq(|expired|, i requires 0 <= i < |expired| => EExpireRecord(expired[i], taskIds[i], now))
  }

  /** The step asks for a deletion task. */
  ghost predicate AsksTask(s: State, e: Event) {
    match e
    case EReserveStale(id, _, now) => Stale(s, id, now)
    case EExpireRecord(scope, _, now) =>
      scope in s.records && Expired(s.records[scope], now) && Abandoned(scope, s.records[scope])
    case _ => false
  }

  /** How often a run of cleanup steps asks for a deletion task. */
  ghost function Reservations(s: State, run: seq<Event>): nat
    decreases |run|
  {
    if run == [] then 0 else (if AsksTask(s, run[0]) then 1 else 0) + Reservations(Next(s, run[0]), run[1..])
  }

  lemma {:induction false} ReservationsConcat(s: State, a: seq<Event>, b: seq<Event>)
    ensures Reservations(s, a + b) == Reservations(s, a) + Reservations(Run(s, a), b)
    decreases |a|
  {
    hide Next, AsksTask;
    if a == [] {
      assert a + b == b;
    } else {
      ReservationsConcat(Next(s, a[0]), a[1..], b);
      assert (a + b)[1..] == a[1..] + b && (a + b)[0] == a[0];
    }
  }

  lemma RunNothing(s: State)
    ensures Run(s, []) == s && Reservations(s, []) == 0
  {
  }

  lemma RunSnoc(s: State, run: seq<Event>, i: nat)
    requires i < |run|
    ensures Run(s, run[..i + 1]) == Next(Run(s, run[..i]), run[i])
    ensures Reservations(s, run[..i + 1])
            == Reservations(s, run[..i]) + (if AsksTask(Run(s, run[..i]), run[i]) then 1 else 0)
  {
    hide Next, AsksTask;
    RunConcat(s, run[..i], [run[i]]);
    ReservationsConcat(s, run[..i], [run[i]]);
    assert run[..i + 1] == run[..i] + [run[i]];
    var s' := Run(s, run[..i]);
    assert Run(s', [run[i]]) == Run(Next(s', run[i]), []);
    assert Reservations(s', [run[i]]) == (if AsksTask(s', run[i]) then 1 else 0) + Reservations(Next(s', run[i]), []);
  }

  /** A claim that is refused or replays changes no record. */
  lemma AcquireKeeps(records: Records, scope: Scope, upload: Upload, resource: Option<Id>, now: Time)
    ensures var (records', claim) := Acquire(records, scope, upload, resource, now);
            claim.Refused? || claim.decision == Replay ==> records' == records
  {
  }

  lemma ForgetCount(records: Records, scope: Scope)
    requires scope in records
    ensures |records - {scope}| == |records| - 1
  {
    assert records.Keys == (records - {scope}).Keys + {scope};
    assert |records.Keys| == |(records - {scope}).Keys| + 1;
  }

  /** The upload is answered without a new image: what was stored for it is to be deleted. */
  predicate Dropped(a: Attempt, outcome: MaterialOutcome) {
    outcome.Reject? || !a.upload.fits || outcome.SameCapture?
  }

  /** The row is there, as a material of its batch, and nothing else became one. */
  ghost predicate Registered(s: State, s': State, a: Attempt, row: Artifact) {
    && s'.artifacts == s.artifacts[row.id := row] && s'.materials == s.materials + {row.id}
    && s'.created == s.created + [row] && row.id == a.resource && row.purpose == GuideMaterial
  }

  /** The status that an attempt answers its record with, or 400 where it leaves the record open. */
  ghost function UploadReply(s: State, a: Attempt, outcome: MaterialOutcome, now: Time): Option<int> {
    if outcome.Reject? then Some(outcome.refusal.ResponseStatus())
    else if !a.upload.fits then Some(400)
    else if outcome.SameCapture? then Some(200)
    else
      var row := NewRow(a, GuideMaterial, Micro(now));
      if row.Valid() && !Taken(s.artifacts, row) then Some(201) else None
  }

  /** The status that the caller of a material upload is answered by its last transaction. */
  ghost function MaterialReply(s: State, attempt: Id, outcome: MaterialOutcome, now: Time): Option<int>
    requires attempt in s.attempts
  {
    var a := s.attempts[attempt];
    if a.scope !in s.records || s.records[a.scope].hash != a.upload then None
    else if s.records[a.scope].status == Completed then s.records[a.scope].responseStatus
    else UploadReply(s, a, outcome, now)
  }

  lemma SameReply(s: State, s': State, a: Attempt, outcome: MaterialOutcome, now: Time)
    requires s'.artifacts == s.artifacts
    ensures UploadReply(s', a, outcome, now) == UploadReply(s, a, outcome, now)
  {
  }

  /** Whatever a caller is answered, except a request that does not fit its batch, is what the record answers to
      every repetition from then on. */
  lemma ReplyIsStored(s: State, t: Id, outcome: MaterialOutcome, taskId: Id, now: Time)
    requires t in s.attempts && s.attempts[t].phase == Stored && s.attempts[t].scope.path.MaterialUpload?
    requires var reply := MaterialReply(s, t, outcome, now); reply.Some? && reply != Some(400)
    ensures var scope := s.attempts[t].scope; var s' := ArtifactStore.FinishMaterial(s, t, outcome, taskId, now);
            && scope in s'.records && s'.records[scope].status == Completed
            && s'.records[scope].responseStatus == MaterialReply(s, t, outcome, now)
  {
    hide UploadReply, ArtifactStore.AnswerUpload, Replayed;
    var a := s.attempts[t];
    if MaterialProceeds(s, t) {
      var s' := s.(attempts := s.attempts - {t}, used := s.used + {taskId});
      SameReply(s, s', a, outcome, now);
      AnswerIsStored(s', a, outcome, taskId, now);
    }
  }

  lemma AnswerIsStored(s: State, a: Attempt, outcome: MaterialOutcome, taskId: Id, now: Time)
    requires a.scope in s.records && s.records[a.scope].status == InProgress
    requires var reply := UploadReply(s, a, outcome, now); reply.Some? && reply != Some(400)
    ensures var s' := ArtifactStore.AnswerUpload(s, a, outcome, taskId, now);
            && a.scope in s'.records && s'.records[a.scope].status == Completed
            && s'.records[a.scope].responseStatus == UploadReply(s, a, outcome, now)
  {
    hide Artifact.Valid, Taken, NewRow, NewTask, Reserve, Tell, Execute, Refusal.ResponseStatus;
    if outcome.Reject? {
      CompleteStores(s.records, a.scope, outcome.refusal.ResponseStatus(), ErrorBody(outcome.refusal), now);
    } else if outcome.SameCapture? {
      CompleteStores(s.records, a.scope, 200, MaterialBody(outcome.artifact), now);
    } else {
      CompleteStores(s.records, a.scope, 201, MaterialBody(NewRow(a, GuideMaterial, Micro(now)).id), now);
    }
  }

  lemma CompleteStores(records: Records, scope: Scope, status: int, body: Body, now: Time)
    requires scope in records && records[scope].status == InProgress
    ensures var records' := Execute(records, Complete(scope, status, body, now));
            scope in records' && records'[scope].status == Completed && records'[scope].responseStatus == Some(status)
  {
  }

  lemma OwnId(a: Attempt, purpose: Purpose, createdAt: Time)
    ensures var row := NewRow(a, purpose, createdAt);
            && row.id == a.resource && row.purpose == purpose && row.createdAt == row.updatedAt == createdAt
            && row.revision == 1
  {
  }

  /** The record's stored response is a success that names a guide material. */
  predicate TellsOfMaterial(record: Record<Upload, Body>) {
    && record.resource.Some? && record.body.Some? && record.body.value.MaterialBody?
    && (record.responseStatus == Some(200) || record.responseStatus == Some(201))
  }

  /** The artifact that the stored response of a completed screenshot upload decodes to. */
  function StoredArtifact(record: Record<Upload, Body>): Option<Artifact> {
    if record.responseStatus == Some(201) && record.body.Some? && record.body.value.ArtifactBody?
    then DecodeArtifact(record.body.value.json) else None
  }

  /** How the first transaction of an upload answers, and what it leaves. */
  lemma ClaimKinds(s: State, t: Id, scope: Scope, upload: Upload, r: Id, now: Time)
    requires Inv(s) && scope.path.ArtifactUpload?
    ensures var s' := ArtifactStore.BeginUpload(s, t, scope, upload, r, now);
            var claim := Acquire(s.records, scope, upload, Some(r), now).1;
            && (claim.Claimed? && claim.decision != Replay <==> Claimable(s.records, scope, upload, now))
            && (Claimable(s.records, scope, upload, now) ==>
                  claim.record.resource.Some? && t in s'.attempts
                  && s'.attempts[t] == Attempt(Putting, scope, upload, RowToBe(s.records, scope, upload, r, now).id))
            && (claim.Claimed? && claim.decision == Replay <==>
                  scope in s.records && s.records[scope].hash == upload && s.records[scope].status == Completed)
            && (claim.Claimed? && claim.decision == Replay ==>
                  && claim.record == s.records[scope] && claim.record.resource.Some?
                  && StoredArtifact(claim.record).Some? && StoredArtifact(claim.record).value in s'.created
                  && s'.records == s.records && s'.artifacts == s.artifacts && s'.objects == s.objects)
            && (claim.Refused? ==> s' == s.(used := s.used + {r}))
  {
    ClaimVerdicts(s.records, s.claims, scope, upload, r, now);
    if Claimable(s.records, scope, upload, now) {
      ClaimStarts(s, t, scope, upload, r, now);
    } else if scope in s.records && s.records[scope].hash == upload && s.records[scope].status == Completed {
      StoredIsMade(s, scope);
    }
    hide Inv, Acquire, Claimable, RowToBe, StoredArtifact;
  }

  lemma ClaimVerdicts(records: Records, claims: Claims, scope: Scope, upload: Upload, r: Id, now: Time)
    requires RecordsOk(records, claims)
    ensures var (records', claim) := Acquire(records, scope, upload, Some(r), now);
            && (claim.Claimed? && claim.decision != Replay <==> Claimable(records, scope, upload, now))
            && (Claimable(records, scope, upload, now) ==> claim.record.resource.Some?)
            && (claim.Claimed? && claim.decision == Replay <==>
                  scope in records && records[scope].hash == upload && records[scope].status == Completed)
            && (claim.Claimed? && claim.decision == Replay ==>
                  claim.record == records[scope] && claim.record.resource.Some?)
            && (claim.Refused? || claim.decision == Replay ==> records' == records)
  {
    AcquireOutcome(records, scope, upload, Some(r), now);
    hide Acquire;
  }

  lemma StoredIsMade(s: State, scope: Scope)
    requires Inv(s) && scope in s.records && s.records[scope].status == Completed && scope.path.ArtifactUpload?
    ensures StoredArtifact(s.records[scope]).Some? && StoredArtifact(s.records[scope]).value in s.created
  {
    assert BodyOk(s.created, scope, s.records[scope]);
    var i :| 0 <= i < |s.created| && s.records[scope].body == Some(ArtifactBody(EncodeArtifact(s.created[i])));
    assert s.created[i].Valid();
    ArtifactReplay(s.created[i]);
    hide Inv, Artifact.Valid, EncodeArtifact, DecodeArtifact;
  }

  lemma UploadReplies(s: State, t: Id, scope: Scope, upload: Upload, r: Id, begun: Time, finished: Time)
    requires Inv(s) && scope.path.ArtifactUpload? && Claimable(s.records, scope, upload, begun) && r !in s.used
    ensures var s' := PutSucceeds(ArtifactStore.BeginUpload(s, t, scope, upload, r, begun), t);
            var row := RowToBe(s.records, scope, upload, r, begun);
            && Inv(s') && t in s'.attempts && Inv(ArtifactStore.FinishScreenshot(s', t, finished))
            && (row.Valid() ==>
                  && CanCreate(s', s'.attempts[t])
                  && NewRow(s'.attempts[t], RequestScreenshot, s'.records[s'.attempts[t].scope].createdAt) == row
                  && Delivered(ArtifactStore.FinishScreenshot(s', t, finished), scope, row, upload.picture))
  {
    UploadReachesStorage(s, t, scope, upload, r, begun);
    hide ArtifactStore.BeginUpload, PutSucceeds, ArtifactStore.FinishScreenshot, Taken, Fits;
    var s' := PutSucceeds(ArtifactStore.BeginUpload(s, t, scope, upload, r, begun), t);
    var row := RowToBe(s.records, scope, upload, r, begun);
    FinishScreenshotKeeps(s', t, finished);
    if row.Valid() {
      UploadCompletes(s, t, scope, upload, r, begun, finished);
      RowIsOf(s'.attempts[t], s'.records[scope].createdAt);
      CurrentInsertIsFree(s', t, row);
      MayInsertIsOpen(s', t);
    }
    hide Inv, Artifact.Valid, NewRow, RowToBe, Claimable, Delivered;
  }

  lemma RowIsOf(a: Attempt, createdAt: Time)
    requires NewRow(a, RequestScreenshot, createdAt).Valid() && a.scope.path.ArtifactUpload?
    ensures RowOf(NewRow(a, RequestScreenshot, createdAt), a)
  {
  }

  lemma FailedPutKeeps(
      s: State, t: Id, scope: Scope, upload: Upload, r: Id, begun: Time, put: PutResult, released: Time)
    requires Inv(s) && scope.path.ArtifactUpload? && Claimable(s.records, scope, upload, begun) && r !in s.used
    requires put.PutError?
    ensures var s1 := ArtifactStore.BeginUpload(s, t, scope, upload, r, begun);
            var s2 := PutFails(s1, t, put.applied, put.late, put.definite);
            && Inv(s2) && Inv(Release(s2, t, released))
            && s1.artifacts == s.artifacts && t in s1.attempts && s1.attempts[t].scope == scope
            && scope in s1.records && s1.records[scope].status == InProgress
            && s1.records[scope].lease == Some(Micro(begun + LEASE))
  {
    assert RecordsOk(s.records, s.claims);
    hide Kept, Tidy, ArtifactStore.BeginUpload, RecordsOk, PutFails, Release, Claimable, RowToBe;
    ClaimStarts(s, t, scope, upload, r, begun);
    BeginUploadKeeps(s, t, scope, upload, r, begun);
    var s1 := ArtifactStore.BeginUpload(s, t, scope, upload, r, begun);
    PutFailsKeeps(s1, t, put.applied, put.late, put.definite);
    ReleaseKeeps(PutFails(s1, t, put.applied, put.late, put.definite), t, released);
  }

  /** The attempt's claim is still its record's and unanswered, and its row breaks no constraint. */
  ghost predicate CanCreate(s: State, a: Attempt) {
    && a.scope in s.records && s.records[a.scope].hash == a.upload && s.records[a.scope].status == InProgress
    && s.records[a.scope].resource == Some(a.resource)
    && var row := NewRow(a, RequestScreenshot, s.records[a.scope].createdAt); row.Valid() && !Taken(s.artifacts, row)
  }
}
