/** Why the condition on the last transaction of a material upload is exact: where it fails, some continuation
    of the run offers an image that storage does not have. */
module ArtifactAvailability {
  import opened Common
  import opened Entities
  import opened Idempotency
  import opened ArtifactStore
  import opened ArtifactInvariant
  import opened ArtifactRuns

  /** Every available image has its object. */
  ghost predicate AllHeld(s: State) {
    forall id :: Available(s, id) ==> s.artifacts[id].storageKey in s.objects
  }

  /** However the run goes on, safely from here, every available image has its object. */
  ghost predicate StaysHeld(s: State) {
    forall run :: SafeRun(s, run) ==> AllHeld(Run(s, run))
  }

  // -------------------------------------------------------------------------------- vocabulary

  /** No event here ends a material upload, so each is fair and safe. */
  predicate Plain(e: Event) {
    e.ERecoverTasks? || e.EMarkRunning? || e.EEraseSucceeds? || e.EFinishDeletion? || e.ELateDelete?
  }

  lemma OneStep(s: State, e: Event)
    requires Plain(e)
    ensures SafeRun(s, [e]) && Run(s, [e]) == Next(s, e)
  {
    hide Next;
    assert [e][1..] == [];
    assert Run(s, [e]) == Run(Next(s, e), []);
    assert SafeRun(s, [e]) == (Fair(s, e) && Safe(s, e) && SafeRun(Next(s, e), []));
  }

  lemma MoreSteps(s: State, e: Event, run: seq<Event>)
    requires Plain(e) && SafeRun(Next(s, e), run)
    ensures SafeRun(s, [e] + run) && Run(s, [e] + run) == Run(Next(s, e), run)
  {
    hide Next;
    assert ([e] + run)[1..] == run && ([e] + run)[0] == e;
  }

  function Letters(n: nat): Id {
    if n == 0 then "" else "w" + Letters(n - 1)
  }

  lemma {:induction false} LettersLength(n: nat)
    ensures |Letters(n)| == n
  {
    if n > 0 {
      LettersLength(n - 1);
    }
  }

  /** There is always a name that is not in use. */
  lemma {:induction false} NewName(names: set<Id>, n: nat) returns (name: Id)
    ensures name !in names && |name| >= n
    decreases |names|
  {
    if names == {} {
      LettersLength(n);
      name := Letters(n);
    } else {
      var one :| one in names;
      name := NewName(names - {one}, if n > |one| then n else |one| + 1);
    }
  }

  // ---------------------------------------------------------------------------------- the harm

  /** A task without an artifact on the key of a row: its worker erases the object and leaves the row. */
  lemma NoneTaskDooms(s: State, key: Key)
    requires key in s.tasks && s.tasks[key].artifact.None?
    requires forall k :: k in s.tasks && s.tasks[k].id == s.tasks[key].id ==> k == key
    requires key.id in s.artifacts && s.artifacts[key.id].storageKey == key
    ensures !StaysHeld(s)
  {
    var w := NewName(s.deletions.Keys, 0);
    var s1 := RecoverTasks(s);
    var now := s.tasks[key].nextAttemptAt + 1000;
    DoomedDeletion(s1, w, key, now);
    hide Next, RecoverTasks, AllHeld;
    var run := [EMarkRunning(w, key, now), EEraseSucceeds(w), EFinishDeletion(w)];
    assert Next(s, ERecoverTasks) == s1 by { RecoverIsNext(s); }
    MoreSteps(s, ERecoverTasks, run);
    assert SafeRun(s, [ERecoverTasks] + run) && !AllHeld(Run(s, [ERecoverTasks] + run));
  }

  lemma RecoverIsNext(s: State)
    ensures Next(s, ERecoverTasks) == RecoverTasks(s)
  {
  }

  lemma DoomedDeletion(s: State, w: Id, key: Key, now: Time)
    requires w !in s.deletions && Due(s, key, now) && s.tasks[key].artifact.None?
    requires forall k :: k in s.tasks && s.tasks[k].id == s.tasks[key].id ==> k == key
    requires key.id in s.artifacts && s.artifacts[key.id].storageKey == key
    ensures var run := [EMarkRunning(w, key, now), EEraseSucceeds(w), EFinishDeletion(w)];
            SafeRun(s, run) && !AllHeld(Run(s, run))
  {
    var e1, e2, e3 := EMarkRunning(w, key, now), EEraseSucceeds(w), EFinishDeletion(w);
    var s1 := Next(s, e1);
    var s2 := Next(s1, e2);
    MarkedStep(s, w, key, now);
    ErasedStep(s1, w, key);
    LeftStep(s2, w, key);
    hide Next, AllHeld, SafeRun, Run;
    OneStep(s2, e3);
    MoreSteps(s1, e2, [e3]);
    MoreSteps(s, e1, [e2, e3]);
    assert [e1] + [e2, e3] == [e1, e2, e3] && [e2] + [e3] == [e2, e3];
  }

  /** A worker is at this point with a task that names no artifact, though the key has a row. */
  ghost predicate Working(s: State, w: Id, key: Key, erasure: Erasure) {
    && w in s.deletions && s.deletions[w].key == key && s.deletions[w].erasure == erasure
    && s.deletions[w].task.artifact.None? && key.id in s.artifacts && s.artifacts[key.id].storageKey == key
    && (forall k :: k in s.tasks && s.tasks[k].id == s.deletions[w].task.id ==> k == key)
    && key in s.tasks && s.tasks[key].id == s.deletions[w].task.id
  }

  lemma MarkedStep(s: State, w: Id, key: Key, now: Time)
    requires w !in s.deletions && Due(s, key, now) && s.tasks[key].artifact.None?
    requires forall k :: k in s.tasks && s.tasks[k].id == s.tasks[key].id ==> k == key
    requires key.id in s.artifacts && s.artifacts[key.id].storageKey == key
    ensures Working(Next(s, EMarkRunning(w, key, now)), w, key, Marked)
  {
  }

  lemma ErasedStep(s: State, w: Id, key: Key)
    requires Working(s, w, key, Marked)
    ensures Working(Next(s, EEraseSucceeds(w)), w, key, Erased) && key !in Next(s, EEraseSucceeds(w)).objects
  {
  }

  lemma LeftStep(s: State, w: Id, key: Key)
    requires Working(s, w, key, Erased) && key !in s.objects
    ensures !AllHeld(Next(s, EFinishDeletion(w)))
  {
    assert Available(Next(s, EFinishDeletion(w)), key.id);
  }

  /** An available image whose object is gone, or about to be deleted. */
  lemma UnheldDooms(s: State, key: Key)
    requires key !in s.tasks && key.id in s.artifacts && s.artifacts[key.id].storageKey == key
    requires key !in s.objects || Threat(s.lateDeletes, s.deletions, key)
    ensures !StaysHeld(s)
  {
    if key !in s.objects {
      assert Available(s, key.id);
      assert SafeRun(s, []) && Run(s, []) == s && !AllHeld(s);
    } else if key in s.lateDeletes {
      Erases(s, ELateDelete(key), key);
    } else {
      var w :| w in s.deletions && s.deletions[w].key == key && s.deletions[w].erasure == Marked;
      Erases(s, EEraseSucceeds(w), key);
    }
  }

  lemma Erases(s: State, e: Event, key: Key)
    requires key !in s.tasks && key.id in s.artifacts && s.artifacts[key.id].storageKey == key
    requires || (e == ELateDelete(key) && key in s.lateDeletes)
             || (e.EEraseSucceeds? && e.worker in s.deletions && s.deletions[e.worker].key == key
                 && s.deletions[e.worker].erasure == Marked)
    ensures !StaysHeld(s)
  {
    assert Available(Next(s, e), key.id) && key !in Next(s, e).objects;
    hide Next, Run, SafeRun;
    OneStep(s, e);
    assert !AllHeld(Run(s, [e]));
  }

  lemma UnsafeRegisterDooms(s: State, t: Id, outcome: MaterialOutcome, taskId: Id, now: Time)
    requires Kept(s) && MaterialProceeds(s, t) && Registers(s, t, outcome, now)
    requires !Secure(s, KeyOf(s.attempts[t].scope, s.attempts[t].resource))
    ensures !StaysHeld(FinishMaterial(s, t, outcome, taskId, now))
  {
    var key := KeyOf(s.attempts[t].scope, s.attempts[t].resource);
    var s' := FinishMaterial(s, t, outcome, taskId, now);
    assert TaskIdsOk(s.tasks, s.deletions);
    RegisteredRow(s, t, outcome, taskId, now);
    hide Kept, StaysHeld, FinishMaterial;
    if key in s.tasks {
      NoneTaskDooms(s', key);
    } else {
      UnheldDooms(s', key);
    }
  }

  lemma RegisteredRow(s: State, t: Id, outcome: MaterialOutcome, taskId: Id, now: Time)
    requires MaterialProceeds(s, t) && Registers(s, t, outcome, now)
    ensures var key := KeyOf(s.attempts[t].scope, s.attempts[t].resource);
            var s' := FinishMaterial(s, t, outcome, taskId, now);
            && key.id in s'.artifacts && s'.artifacts[key.id].storageKey == key
            && s'.tasks == s.tasks && s'.objects == s.objects
            && s'.lateDeletes == s.lateDeletes && s'.deletions == s.deletions
  {
    hide Artifact.Valid, Taken, Execute;
  }

  lemma UnsafeReserveDooms(s: State, t: Id, outcome: MaterialOutcome, taskId: Id, now: Time)
    requires Kept(s) && MaterialProceeds(s, t) && Reserves(s, t, outcome) && taskId !in s.used
    requires var a := s.attempts[t]; a.resource in s.artifacts && KeyOf(a.scope, a.resource) !in s.tasks
    ensures !StaysHeld(FinishMaterial(s, t, outcome, taskId, now))
  {
    hide Kept, StaysHeld, FinishMaterial, NewTask;
    RowOfAttempt(s, t, taskId);
    ReservedKey(s, t, outcome, taskId, now);
    NoneTaskDooms(FinishMaterial(s, t, outcome, taskId, now), KeyOf(s.attempts[t].scope, s.attempts[t].resource));
  }

  lemma RowOfAttempt(s: State, t: Id, taskId: Id)
    requires Kept(s) && t in s.attempts && taskId !in s.used && s.attempts[t].resource in s.artifacts
    ensures s.artifacts[s.attempts[t].resource].storageKey == KeyOf(s.attempts[t].scope, s.attempts[t].resource)
    ensures forall k :: k in s.tasks ==> s.tasks[k].id != taskId
  {
    MaterialAttempt(s, t);
    assert forall k :: k in s.tasks ==> TaskFits(k, s.tasks[k], s.claims, s.used);
  }

  lemma ReservedKey(s: State, t: Id, outcome: MaterialOutcome, taskId: Id, now: Time)
    requires MaterialProceeds(s, t) && Reserves(s, t, outcome)
    requires KeyOf(s.attempts[t].scope, s.attempts[t].resource) !in s.tasks
    ensures var key := KeyOf(s.attempts[t].scope, s.attempts[t].resource);
            var s' := FinishMaterial(s, t, outcome, taskId, now);
            && s'.tasks == s.tasks[key := NewTask(taskId, None, now)] && s'.artifacts == s.artifacts
            && s'.tasks[key].id == taskId && s'.tasks[key].artifact.None?
  {
    hide Execute, Refusal.ResponseStatus, Tell;
    if outcome.Reject? {
    } else if !s.attempts[t].upload.fits {
    } else {
    }
  }

  lemma KeptStaysHeld(s: State)
    requires Kept(s)
    ensures StaysHeld(s)
  {
    forall run | SafeRun(s, run) ensures AllHeld(Run(s, run)) {
      RunKept(s, run);
    }
  }

  /** The exact condition: after the last transaction of a material upload every available image has its object,
      then and in every safe continuation, if and only if an image that it registers has its object secure (an
      object in storage that nothing threatens, or a task that takes the row along), and an object that it
      reserves has no row, or is reserved already. */
  lemma MaterialSafeExactly(s: State, t: Id, outcome: MaterialOutcome, taskId: Id, now: Time)
    requires Kept(s) && MaterialProceeds(s, t) && taskId !in s.used
    ensures StaysHeld(FinishMaterial(s, t, outcome, taskId, now)) <==> MaterialSafe(s, t, outcome, now)
  {
    hide Kept, StaysHeld, FinishMaterial, Registers, Reserves, Secure;
    if MaterialSafe(s, t, outcome, now) {
      MaterialSafeKeeps(s, t, outcome, taskId, now);
      KeptStaysHeld(FinishMaterial(s, t, outcome, taskId, now));
    } else if Registers(s, t, outcome, now) && !Secure(s, KeyOf(s.attempts[t].scope, s.attempts[t].resource)) {
      UnsafeRegisterDooms(s, t, outcome, taskId, now);
    } else {
      UnsafeReserveDooms(s, t, outcome, taskId, now);
    }
  }

  /** Nothing else can go wrong: after any step of any kind that extends a safe run, every available image has
      its object, then and ever after, if and only if that step is safe. */
  lemma SafetyIsExact(run: seq<Event>, e: Event)
    requires SafeRun(EMPTY, run) && Fair(Run(EMPTY, run), e)
    ensures StaysHeld(Next(Run(EMPTY, run), e)) <==> Safe(Run(EMPTY, run), e)
  {
    EmptyInv();
    RunKept(EMPTY, run);
    var s := Run(EMPTY, run);
    hide Kept, StaysHeld, Fair, Run, SafeRun, MaterialSafe;
    if e.EFinishMaterial? && MaterialProceeds(s, e.attempt) {
      UnusedTask(s, e);
      MaterialSafeExactly(s, e.attempt, e.outcome, e.taskId, e.now);
    } else {
      StepKept(s, e);
      KeptStaysHeld(Next(s, e));
    }
  }

  lemma UnusedTask(s: State, e: Event)
    requires e.EFinishMaterial? && Fair(s, e)
    ensures e.taskId !in s.used
  {
  }
}
