/** The run that the material upload's missing comparison allows: an available image without its object. */
module StaleUpload {
  import opened Common
  import opened Entities
  import opened Idempotency
  import opened ArtifactStore
  import opened ArtifactRuns

  lemma {:induction false} FairConcat(s: State, a: seq<Event>, b: seq<Event>)
    ensures Run(s, a + b) == Run(Run(s, a), b)
    ensures FairRun(s, a) && FairRun(Run(s, a), b) ==> FairRun(s, a + b)
    decreases |a|
  {
    hide Next, Fair;
    if a == [] {
      assert a + b == b;
    } else {
      FairConcat(Next(s, a[0]), a[1..], b);
      assert (a + b)[1..] == a[1..] + b && (a + b)[0] == a[0];
    }
  }

  /** The names in the run: two attempts, the artifact IDs of their claims, two task IDs and a worker. */
  datatype Names = Names(first: Id, second: Id, lapsed: Id, renewed: Id, task: Id, spare: Id, worker: Id)
  {
    predicate Differ() {
      && first != second && lapsed != renewed && lapsed != task && renewed != task
      && spare != lapsed && spare != renewed && spare != task
    }
  }

  /** After the first attempt stored its object. */
  function Uploaded(n: Names, scope: Scope, upload: Upload): State {
    EMPTY.(records := map[scope := Record(upload, InProgress, Some(n.lapsed), None, None, Some(LEASE), 0, None, None)],
           objects := map[Key(scope.actor, n.lapsed) := upload.picture],
           attempts := map[n.first := Attempt(Stored, scope, upload, n.lapsed)],
           used := {n.lapsed}, claims := map[n.lapsed := FirstClaim(scope, upload, 0)])
  }

  /** A day later: the record expired and its object was deleted. The first attempt has not woken up yet. */
  function Cleaned(n: Names, scope: Scope, upload: Upload): State {
    Uploaded(n, scope, upload).(records := map[], objects := map[], used := {n.lapsed, n.task})
  }

  lemma UploadedRun(n: Names, scope: Scope, upload: Upload)
    requires n.Differ() && scope.path.MaterialUpload?
    ensures var run := [EBeginUpload(n.first, scope, upload, n.lapsed, 0), EPutSucceeds(n.first)];
            FairRun(EMPTY, run) && Run(EMPTY, run) == Uploaded(n, scope, upload)
  {
    var e1, e2 := EBeginUpload(n.first, scope, upload, n.lapsed, 0), EPutSucceeds(n.first);
    var s1 := Next(EMPTY, e1);
    assert [e1, e2][1..] == [e2] && [e2][1..] == [];
    assert Next(s1, e2) == Uploaded(n, scope, upload);
    assert Run(s1, [e2]) == Run(Next(s1, e2), []);
  }

  function Lapsed(n: Names, scope: Scope, upload: Upload): State {
    Uploaded(n, scope, upload).(records := map[], used := {n.lapsed, n.task},
      tasks := map[Key(scope.actor, n.lapsed) := NewTask(n.task, None, DAY)])
  }

  function Worked(n: Names, scope: Scope, upload: Upload, objects: map<Key, Picture>, erasure: Erasure): State {
    var key := Key(scope.actor, n.lapsed);
    var task := NewTask(n.task, None, DAY).(running := true, attempt := 1);
    Lapsed(n, scope, upload).(tasks := map[key := task], objects := objects,
      deletions := map[n.worker := Deletion(key, task, erasure)])
  }

  lemma ExpiryStep(n: Names, scope: Scope, upload: Upload)
    requires n.Differ() && scope.path.MaterialUpload?
    ensures Fair(Uploaded(n, scope, upload), EExpireRecord(scope, n.task, DAY))
    ensures Next(Uploaded(n, scope, upload), EExpireRecord(scope, n.task, DAY)) == Lapsed(n, scope, upload)
  {
    assert Uploaded(n, scope, upload).records - {scope} == map[];
  }

  lemma MarkStep(n: Names, scope: Scope, upload: Upload)
    ensures Next(Lapsed(n, scope, upload), EMarkRunning(n.worker, Key(scope.actor, n.lapsed), DAY))
            == Worked(n, scope, upload, map[Key(scope.actor, n.lapsed) := upload.picture], Marked)
  {
  }

  lemma EraseStep(n: Names, scope: Scope, upload: Upload)
    ensures var key := Key(scope.actor, n.lapsed);
            Next(Worked(n, scope, upload, map[key := upload.picture], Marked), EEraseSucceeds(n.worker))
            == Worked(n, scope, upload, map[], Erased)
  {
    hide Lapsed, NewTask;
    assert map[Key(scope.actor, n.lapsed) := upload.picture] - {Key(scope.actor, n.lapsed)} == map[];
  }

  lemma DeleteStep(n: Names, scope: Scope, upload: Upload)
    ensures Next(Worked(n, scope, upload, map[], Erased), EFinishDeletion(n.worker)) == Cleaned(n, scope, upload)
  {
    var s := Worked(n, scope, upload, map[], Erased);
    assert DeleteTask(s.tasks, n.task) == map[];
    assert s.deletions - {n.worker} == map[];
  }

  function CleanupRun(n: Names, scope: Scope): seq<Event> {
    [EExpireRecord(scope, n.task, DAY), EMarkRunning(n.worker, Key(scope.actor, n.lapsed), DAY)]
    + [EEraseSucceeds(n.worker), EFinishDeletion(n.worker)]
  }

  lemma TwoSteps(s: State, e1: Event, e2: Event)
    ensures Run(s, [e1, e2]) == Next(Next(s, e1), e2)
    ensures FairRun(s, [e1, e2]) <==> Fair(s, e1) && Fair(Next(s, e1), e2)
  {
    hide Next, Fair;
    assert [e1, e2][1..] == [e2] && [e2][1..] == [];
    assert Run(Next(s, e1), [e2]) == Run(Next(Next(s, e1), e2), []);
    assert FairRun(Next(s, e1), [e2]) == (Fair(Next(s, e1), e2) && FairRun(Next(Next(s, e1), e2), []));
  }

  lemma CleanedRun(n: Names, scope: Scope, upload: Upload)
    requires n.Differ() && scope.path.MaterialUpload?
    ensures FairRun(Uploaded(n, scope, upload), CleanupRun(n, scope))
    ensures Run(Uploaded(n, scope, upload), CleanupRun(n, scope)) == Cleaned(n, scope, upload)
  {
    hide Next, Uploaded, Lapsed, Worked, Cleaned, Run, FairRun;
    var key := Key(scope.actor, n.lapsed);
    var s := Uploaded(n, scope, upload);
    ExpiryStep(n, scope, upload);
    MarkStep(n, scope, upload);
    EraseStep(n, scope, upload);
    DeleteStep(n, scope, upload);
    TwoSteps(s, EExpireRecord(scope, n.task, DAY), EMarkRunning(n.worker, key, DAY));
    TwoSteps(Run(s, CleanupRun(n, scope)[..2]), EEraseSucceeds(n.worker), EFinishDeletion(n.worker));
    FairConcat(s, CleanupRun(n, scope)[..2], CleanupRun(n, scope)[2..]);
  }

  lemma RetriedStep(n: Names, scope: Scope, upload: Upload)
    requires n.Differ() && scope.path.MaterialUpload?
    ensures var s := Next(Cleaned(n, scope, upload), EBeginUpload(n.second, scope, upload, n.renewed, DAY));
            && Fair(Cleaned(n, scope, upload), EBeginUpload(n.second, scope, upload, n.renewed, DAY))
            && MaterialProceeds(s, n.first) && n.spare !in s.used
            && s.attempts[n.first] == Attempt(Stored, scope, upload, n.lapsed)
            && s.artifacts == map[] && s.tasks == map[] && s.objects == map[]
            && s.records[scope].resource == Some(n.renewed)
  {
  }

  lemma LateFinish(s: State, t: Id, spare: Id)
    requires MaterialProceeds(s, t) && s.attempts[t].upload.fits
    requires s.artifacts == map[] && s.tasks == map[] && s.objects == map[]
    requires NewRow(s.attempts[t], GuideMaterial, Micro(DAY)).Valid()
    ensures var s', r := FinishMaterial(s, t, Register, spare, DAY), s.attempts[t].resource;
            Available(s', r) && s'.artifacts[r].storageKey !in s'.objects
  {
    hide Artifact.Valid, Execute;
  }

  function StaleRun(n: Names, scope: Scope, upload: Upload): seq<Event> {
    [EBeginUpload(n.first, scope, upload, n.lapsed, 0), EPutSucceeds(n.first)]
    + CleanupRun(n, scope)
    + [EBeginUpload(n.second, scope, upload, n.renewed, DAY), EFinishMaterial(n.first, Register, n.spare, DAY)]
  }

  lemma StaleRunEnds(n: Names, scope: Scope, upload: Upload)
    requires n.Differ() && scope.path.MaterialUpload?
    ensures FairRun(EMPTY, StaleRun(n, scope, upload))
    ensures Run(EMPTY, StaleRun(n, scope, upload))
            == FinishMaterial(Next(Cleaned(n, scope, upload), EBeginUpload(n.second, scope, upload, n.renewed, DAY)),
                              n.first, Register, n.spare, DAY)
  {
    hide Uploaded, Cleaned, CleanupRun, BeginUpload, FinishMaterial, Run, FairRun, MaterialProceeds;
    var run1 := [EBeginUpload(n.first, scope, upload, n.lapsed, 0), EPutSucceeds(n.first)];
    var e1, e2 := EBeginUpload(n.second, scope, upload, n.renewed, DAY), EFinishMaterial(n.first, Register, n.spare, DAY);
    UploadedRun(n, scope, upload);
    CleanedRun(n, scope, upload);
    RetriedStep(n, scope, upload);
    TwoSteps(Cleaned(n, scope, upload), e1, e2);
    FairConcat(EMPTY, run1, CleanupRun(n, scope));
    FairConcat(EMPTY, run1 + CleanupRun(n, scope), [e1, e2]);
  }

  /** A day-old material attempt wakes up after its object was cleaned away and its key claimed anew. It
      registers an image that the content API offers, though storage does not have it. */
  lemma StaleMaterialHasNoObject(n: Names, scope: Scope, upload: Upload)
    requires n.Differ() && scope.path.MaterialUpload? && upload.fits
    requires NewRow(Attempt(Stored, scope, upload, n.lapsed), GuideMaterial, Micro(DAY)).Valid()
    ensures var s := Run(EMPTY, StaleRun(n, scope, upload));
            && FairRun(EMPTY, StaleRun(n, scope, upload))
            && Available(s, n.lapsed) && s.artifacts[n.lapsed].storageKey !in s.objects
  {
    StaleRunEnds(n, scope, upload);
    RetriedStep(n, scope, upload);
    hide Run, FairRun, Cleaned, Next, StaleRun, FinishMaterial, NewRow, Artifact.Valid, Available;
    LateFinish(Next(Cleaned(n, scope, upload), EBeginUpload(n.second, scope, upload, n.renewed, DAY)), n.first, n.spare);
  }
}
