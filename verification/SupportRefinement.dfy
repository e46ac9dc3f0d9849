/** The support flow, statement by statement, refines the references of the artifact protocol: what the
    interleaved statements do to images, reservations and references is what runs of its transactions do. */
module SupportRefinement {
  import opened Common
  import opened Entities
  import F = SupportFlow
  import R = SupportRuns
  import opened ArtifactStore
  import opened ArtifactInvariant
  import opened ArtifactRuns
  import ArtifactAvailability

  // ------------------------------------------------------------------------------- the relation

  /** All images are screenshots of the same IDs. */
  ghost predicate SameRows(images: set<Id>, a: State) {
    && images == a.artifacts.Keys && a.materials == {}
    && forall i :: i in a.artifacts ==> a.artifacts[i].purpose == RequestScreenshot
  }

  ghost predicate SameReserved(reserved: set<Id>, a: State) {
    forall i :: i in a.artifacts ==> (i in reserved <==> a.artifacts[i].storageKey in a.tasks)
  }

  ghost predicate SameReferences(c: F.State, a: State) {
    forall i :: F.Referenced(c, i) <==> i in a.pinned || i in a.strayed
  }

  /** Whoever has read an image, there, has read it here. */
  ghost predicate SameReaders(c: F.State, a: State) {
    forall t :: F.At(c, t, true, F.ImageRead) ==> t in a.readers && a.readers[t] == c.creators[t].screenshot
  }

  ghost predicate Matches(c: F.State, a: State) {
    SameRows(c.images, a) && SameReserved(c.reserved, a) && SameReferences(c, a) && SameReaders(c, a)
  }

  lemma EmptyMatches()
    ensures Matches(F.EMPTY, EMPTY)
  {
  }

  // -------------------------------------------------------------------------------- silent steps

  lemma SilentMatches(c: F.State, c': F.State, a: State)
    requires Matches(c, a) && R.SameImages(c, c')
    requires forall t :: F.At(c', t, true, F.ImageRead) ==>
               F.At(c, t, true, F.ImageRead) && c'.creators[t].screenshot == c.creators[t].screenshot
    ensures Matches(c', a)
  {
    forall i ensures F.Referenced(c', i) <==> F.Referenced(c, i) {
      if r :| r in c.requests && c.requests[r].screenshot == i {
        assert c'.requests[r].screenshot == i;
      }
      if r :| r in c'.requests && c'.requests[r].screenshot == i {
        assert c.requests[r].screenshot == i;
      }
    }
    hide F.Referenced, SameRows, SameReserved;
  }

  // ----------------------------------------------------------------------------------- references

  lemma OneEvent(a: State, e: Event)
    requires !e.EFinishMaterial? && Fair(a, e)
    ensures Allowed(a, [e]) && Run(a, [e]) == Next(a, e)
  {
    hide Next, Fair;
    assert [e][1..] == [];
    assert Run(a, [e]) == Run(Next(a, e), []);
    assert Allowed(a, [e]) == (Fair(a, e) && Fenced(a, e) && Allowed(Next(a, e), []));
  }

  lemma NoEvent(a: State)
    ensures Allowed(a, []) && Run(a, []) == a
  {
  }

  lemma ReadMatches(c: F.State, t: Id, a: State)
    requires Matches(c, a) && F.Inv(c) && F.At(c, t, true, F.FlowClear)
    requires c.creators[t].screenshot in c.images && c.creators[t].screenshot !in c.reserved
    ensures Matches(F.ReadImage(c, t), ReadForRun(a, t, c.creators[t].screenshot))
  {
    hide F.Inv, F.Referenced;
    assert Unreserved(a, c.creators[t].screenshot);
    SameRequests(c, F.ReadImage(c, t));
  }

  lemma SameRequests(c: F.State, c': F.State)
    requires c'.requests == c.requests
    ensures forall i :: F.Referenced(c', i) <==> F.Referenced(c, i)
  {
  }

  lemma InsertReferences(c: F.State, t: Id)
    requires t in c.creators && F.CreatorsOk(c.creators, c.requests, c.sessions)
    ensures forall i :: F.Referenced(F.Insert(c, t), i) <==> F.Referenced(c, i) || i == c.creators[t].screenshot
  {
    var c' := F.Insert(c, t);
    var request := c.creators[t].request;
    assert F.StageOk(c.creators[t], c.requests, c.sessions);
    assert request in c'.requests && c'.requests[request].screenshot == c.creators[t].screenshot;
    forall i ensures F.Referenced(c', i) <==> F.Referenced(c, i) || i == c.creators[t].screenshot {
      if r :| r in c.requests && c.requests[r].screenshot == i {
        assert r in c'.requests && c'.requests[r].screenshot == i;
      }
      if r :| r in c'.requests && c'.requests[r].screenshot == i {
        assert r != request ==> r in c.requests && c.requests[r].screenshot == i;
      }
    }
  }

  /** Both sides refer to one more image. */
  lemma ReferMatches(c: F.State, t: Id, a: State, a': State)
    requires Matches(c, a) && t in c.creators && F.CreatorsOk(c.creators, c.requests, c.sessions)
    requires a' == a.(pinned := a'.pinned, strayed := a'.strayed, readers := a'.readers)
    requires a'.pinned + a'.strayed == a.pinned + a.strayed + {c.creators[t].screenshot}
    requires forall u :: u in a.readers && u != t ==> u in a'.readers && a'.readers[u] == a.readers[u]
    ensures Matches(F.Insert(c, t), a')
  {
    InsertReferences(c, t);
    hide F.Referenced, F.CreatorsOk;
    var c' := F.Insert(c, t);
    forall i ensures F.Referenced(c', i) <==> i in a'.pinned || i in a'.strayed {
      assert i in a'.pinned + a'.strayed <==> i in a.pinned + a.strayed || i == c.creators[t].screenshot;
    }
    assert forall u :: F.At(c', u, true, F.ImageRead) ==> u != t && F.At(c, u, true, F.ImageRead);
  }

  lemma PinMatches(c: F.State, t: Id, a: State)
    requires Matches(c, a) && F.Inv(c) && F.At(c, t, false, F.ImageClear)
    ensures Matches(F.InsertRequest(c, t), Pin(a, c.creators[t].screenshot))
  {
    assert F.ImageOk(c.creators[t], c.images, c.reserved);
    assert Unreserved(a, c.creators[t].screenshot);
    hide F.Inv, Matches, Unreserved, F.Insert;
    ReferMatches(c, t, a, Pin(a, c.creators[t].screenshot)) by { assert F.Inv(c); CreatorsFollow(c); }
  }

  lemma CreatorsFollow(c: F.State)
    requires F.Inv(c)
    ensures F.CreatorsOk(c.creators, c.requests, c.sessions)
  {
  }

  lemma TakeMatches(c: F.State, t: Id, a: State)
    requires Matches(c, a) && F.Inv(c) && F.Inserts(c, t)
    ensures Matches(F.InsertFromRun(c, t), TakeForRun(a, t))
  {
    CreatorsFollow(c);
    assert t in a.readers && a.readers[t] == c.creators[t].screenshot && a.readers[t] in a.artifacts;
    hide F.Inv, Matches, F.Insert, F.LockedByOther, F.CreatorsOk;
    ReferMatches(c, t, a, TakeForRun(a, t));
  }

  // -------------------------------------------------------------------------------------- cleanup

  ghost function KeysOf(a: State, images: set<Id>): set<Key> {
    set i | i in images && i in a.artifacts :: a.artifacts[i].storageKey
  }

  /** Deletions of these images were reserved, and nothing else happened to rows and references. */
  ghost predicate ReservedFor(a: State, a': State, images: set<Id>) {
    && a'.artifacts == a.artifacts && a'.pinned == a.pinned && a'.strayed == a.strayed && a'.readers == a.readers
    && a'.materials == a.materials && a'.tasks.Keys == a.tasks.Keys + KeysOf(a, images)
  }

  predicate MayReserve(a: State, images: set<Id>) {
    forall i :: i in images ==>
      i in a.artifacts && a.artifacts[i].purpose == RequestScreenshot && !Referenced(a, i)
  }

  /** One reservation after the other, each with a task ID that is new and a clock that is late enough. */
  lemma {:induction false} ReserveAll(a: State, images: set<Id>) returns (run: seq<Event>)
    requires Inv(a) && MayReserve(a, images)
    ensures Allowed(a, run) && ReservedFor(a, Run(a, run), images)
    decreases |images|
  {
    hide Inv, Next, Fair, Run, Allowed, ReservedFor, MayReserve;
    if images == {} {
      run := [];
      NoEvent(a);
      ReservedNone(a);
    } else {
      var i :| i in images;
      MayReserveLess(a, a, images, i);
      var e := ReserveStep(a, i);
      MayReserveLess(a, Next(a, e), images, i);
      var rest := ReserveAll(Next(a, e), images - {i});
      run := [e] + rest;
      FirstEvent(a, e, rest);
      ReservedMore(a, Next(a, e), Run(a, run), images, i);
    }
  }

  lemma ReservedNone(a: State)
    ensures ReservedFor(a, a, {})
  {
    assert KeysOf(a, {}) == {};
  }

  lemma MayReserveLess(a: State, a1: State, images: set<Id>, i: Id)
    requires MayReserve(a, images) && i in images
    ensures i in a.artifacts && MayReserve(a, {i})
    ensures ReservedFor(a, a1, {i}) ==> MayReserve(a1, images - {i})
  {
  }

  lemma ReserveStep(a: State, i: Id) returns (e: Event)
    requires Inv(a) && MayReserve(a, {i})
    ensures Fair(a, e) && Fenced(a, e) && Inv(Next(a, e)) && ReservedFor(a, Next(a, e), {i})
  {
    hide Inv, ReserveStale, ReservedFor;
    assert i in {i};
    var id := ArtifactAvailability.NewName(a.used, 0);
    e := EReserveStale(i, id, a.artifacts[i].createdAt + DAY + 1000);
    ReserveOne(a, i, id, e.now);
    StaleKeepsInv(a, i, id, e.now);
  }

  lemma StaleKeepsInv(a: State, i: Id, id: Id, now: Time)
    requires Inv(a) && id !in a.used
    ensures Inv(ReserveStale(a, i, id, now))
  {
    hide Kept, Tidy;
    ReserveStaleKeeps(a, i, id, now);
  }

  lemma ReservedMore(a: State, a1: State, a': State, images: set<Id>, i: Id)
    requires i in images && i in a.artifacts && ReservedFor(a, a1, {i}) && ReservedFor(a1, a', images - {i})
    ensures ReservedFor(a, a', images)
  {
    KeysStep(a, images, i);
    assert KeysOf(a, {i}) == {a.artifacts[i].storageKey};
    assert KeysOf(a1, images - {i}) == KeysOf(a, images - {i});
  }

  lemma FirstEvent(a: State, e: Event, rest: seq<Event>)
    requires Fair(a, e) && Fenced(a, e) && Allowed(Next(a, e), rest)
    ensures Allowed(a, [e] + rest) && Run(a, [e] + rest) == Run(Next(a, e), rest)
  {
    hide Next, Fair, Fenced;
    assert ([e] + rest)[1..] == rest && ([e] + rest)[0] == e;
  }

  lemma KeysStep(a: State, images: set<Id>, i: Id)
    requires i in images && i in a.artifacts
    ensures KeysOf(a, images) == {a.artifacts[i].storageKey} + KeysOf(a, images - {i})
  {
  }

  lemma ReserveOne(a: State, i: Id, id: Id, now: Time)
    requires i in a.artifacts && a.artifacts[i].purpose == RequestScreenshot && !Referenced(a, i)
    requires now == a.artifacts[i].createdAt + DAY + 1000
    ensures ReservedFor(a, ReserveStale(a, i, id, now), {i})
  {
    assert KeysOf(a, {i}) == {a.artifacts[i].storageKey};
    if Stale(a, i, now) {}
  }

  lemma CommitMatches(c: F.State, tx: Id, a: State) returns (run: seq<Event>)
    requires Matches(c, a) && F.Inv(c) && Inv(a) && tx in c.cleaners
    ensures Allowed(a, run) && Matches(F.CommitCleanup(c, tx), Run(a, run))
  {
    var pending := c.cleaners[tx].pending;
    PendingUnreferenced(c, tx);
    assert MayReserve(a, pending);
    hide F.Inv, Inv, Matches, MayReserve, ReservedFor, Run, Allowed;
    run := ReserveAll(a, pending);
    CommittedMatches(c, tx, a, Run(a, run));
  }

  lemma CommittedMatches(c: F.State, tx: Id, a: State, a': State)
    requires Matches(c, a) && Inv(a) && tx in c.cleaners
    requires MayReserve(a, c.cleaners[tx].pending) && ReservedFor(a, a', c.cleaners[tx].pending)
    ensures Matches(F.CommitCleanup(c, tx), a')
  {
    ReservedFollow(c.reserved, c.cleaners[tx].pending, a, a');
    CommitReferences(c, tx);
    hide Inv, F.Referenced, SameReserved, KeysOf;
  }

  lemma PendingUnreferenced(c: F.State, tx: Id)
    requires F.Inv(c) && tx in c.cleaners
    ensures forall i :: i in c.cleaners[tx].pending ==> i in c.images && !F.Referenced(c, i)
  {
    assert F.CleanerOk(c.cleaners[tx], c.requests, c.images);
  }

  lemma CommitReferences(c: F.State, tx: Id)
    ensures forall i :: F.Referenced(F.CommitCleanup(c, tx), i) <==> F.Referenced(c, i)
  {
  }

  lemma ReservedFollow(reserved: set<Id>, pending: set<Id>, a: State, a': State)
    requires SameReserved(reserved, a) && Inv(a) && forall i :: i in pending ==> i in a.artifacts
    requires a'.artifacts == a.artifacts && a'.tasks.Keys == a.tasks.Keys + KeysOf(a, pending)
    ensures SameReserved(reserved + pending, a')
  {
    forall i | i in a.artifacts
      ensures a.artifacts[i].storageKey in KeysOf(a, pending) <==> i in pending
    {
      assert a.artifacts[i].storageKey.id == i;
      assert forall j :: j in a.artifacts ==> a.artifacts[j].storageKey.id == j;
    }
    hide Inv;
  }

  // ------------------------------------------------------------------------------------- deletion

  lemma DeleteMatches(c: F.State, image: Id, a: State) returns (run: seq<Event>)
    requires Matches(c, a) && F.Inv(c) && Inv(a)
    requires image in c.reserved && !F.Referenced(c, image)
    ensures Allowed(a, run)
    ensures Matches(c.(images := c.images - {image}, reserved := c.reserved - {image}), Run(a, run))
  {
    assert image in c.images && image in a.artifacts && image !in a.strayed;
    hide F.Inv, Inv, Run, Allowed, Deleted;
    KeysDiffer(a, image);
    run := DeleteRun(a, a.artifacts[image].storageKey);
    DeletedMatches(c, image, a, Run(a, run));
  }

  lemma KeysDiffer(a: State, image: Id)
    requires Inv(a) && image in a.artifacts
    ensures a.artifacts[image].storageKey.id == image
    ensures forall i :: i in a.artifacts && i != image ==> a.artifacts[i].storageKey != a.artifacts[image].storageKey
  {
    assert forall i :: i in a.artifacts ==> a.artifacts[i].storageKey.id == i;
  }

  lemma DeletedMatches(c: F.State, image: Id, a: State, a': State)
    requires Matches(c, a) && image in a.artifacts
    requires forall i :: i in a.artifacts && i != image ==> a.artifacts[i].storageKey != a.artifacts[image].storageKey
    requires a.artifacts[image].storageKey.id == image && Deleted(a, a', a.artifacts[image].storageKey)
    ensures Matches(c.(images := c.images - {image}, reserved := c.reserved - {image}), a')
  {
    var c' := c.(images := c.images - {image}, reserved := c.reserved - {image});
    assert forall i :: F.Referenced(c', i) <==> F.Referenced(c, i);
    hide F.Referenced;
  }

  /** The key's row, object and task are gone, and nothing else happened to rows and references. */
  ghost predicate Deleted(a: State, a': State, key: Key) {
    && a'.artifacts == a.artifacts - {key.id} && a'.tasks.Keys == a.tasks.Keys - {key}
    && a'.pinned == a.pinned && a'.strayed == a.strayed && a'.readers == a.readers && a'.materials == a.materials
  }

  /** Recovery, then one undisturbed deletion of the key. */
  lemma DeleteRun(a: State, key: Key) returns (run: seq<Event>)
    requires Inv(a) && key in a.tasks && key.id !in a.strayed
    ensures Allowed(a, run) && Deleted(a, Run(a, run), key)
  {
    hide Inv, MarkRunning, EraseSucceeds, FinishDeletion, Due, Run, Allowed, Next, Fair, RecoverTasks;
    var w := ArtifactAvailability.NewName(a.deletions.Keys, 0);
    var now := a.tasks[key].nextAttemptAt + 1000;
    var a1 := RecoverTasks(a);
    RecoverKeepsInv(a);
    RecoveredDue(a, key, now);
    DeletionRemovesItsKey(a1, w, key, now);
    var e1, e2, e3 := EMarkRunning(w, key, now), EEraseSucceeds(w), EFinishDeletion(w);
    DeletionNext(a, w, key, now);
    DeletionNext(a1, w, key, now);
    DeletionNext(Next(a1, e1), w, key, now);
    DeletionNext(Next(Next(a1, e1), e2), w, key, now);
    run := [ERecoverTasks] + ([e1] + ([e2] + [e3]));
    OneEvent(Next(Next(a1, e1), e2), e3);
    FirstEvent(Next(a1, e1), e2, [e3]);
    FirstEvent(a1, e1, [e2] + [e3]);
    FirstEvent(a, ERecoverTasks, [e1] + ([e2] + [e3]));
  }

  lemma DeletionNext(a: State, w: Id, key: Key, now: Time)
    ensures Next(a, ERecoverTasks) == RecoverTasks(a) && Fair(a, ERecoverTasks)
    ensures Next(a, EMarkRunning(w, key, now)) == MarkRunning(a, w, key, now) && Fair(a, EMarkRunning(w, key, now))
    ensures Next(a, EEraseSucceeds(w)) == EraseSucceeds(a, w) && Fair(a, EEraseSucceeds(w))
    ensures Next(a, EFinishDeletion(w)) == FinishDeletion(a, w) && Fair(a, EFinishDeletion(w))
  {
    hide MarkRunning, EraseSucceeds, FinishDeletion, RecoverTasks, Next;
    NextRecovers(a);
    NextMarks(a, w, key, now);
    NextErases(a, w);
    NextFinishes(a, w);
  }

  lemma NextRecovers(a: State)
    ensures Next(a, ERecoverTasks) == RecoverTasks(a)
  {
  }

  lemma NextMarks(a: State, w: Id, key: Key, now: Time)
    ensures Next(a, EMarkRunning(w, key, now)) == MarkRunning(a, w, key, now)
  {
  }

  lemma NextErases(a: State, w: Id)
    ensures Next(a, EEraseSucceeds(w)) == EraseSucceeds(a, w)
  {
  }

  lemma NextFinishes(a: State, w: Id)
    ensures Next(a, EFinishDeletion(w)) == FinishDeletion(a, w)
  {
  }

  lemma RecoverKeepsInv(a: State)
    requires Inv(a)
    ensures Inv(RecoverTasks(a))
  {
    hide Kept, Tidy;
    RecoverTasksKeeps(a);
  }

  lemma RecoveredDue(a: State, key: Key, now: Time)
    requires key in a.tasks && now == a.tasks[key].nextAttemptAt + 1000
    ensures Due(RecoverTasks(a), key, now) && RecoverTasks(a).tasks.Keys == a.tasks.Keys
    ensures RecoverTasks(a) == a.(tasks := RecoverTasks(a).tasks)
  {
  }

  // -------------------------------------------------------------------------------- every step

  /** Every step but an upload is matched by a run of transactions, usually of none or one. */
  lemma StepSimulated(c: F.State, e: F.Event, a: State) returns (run: seq<Event>)
    requires F.Inv(c) && F.Fair(c, e) && Inv(a) && Matches(c, a) && !e.EUpload?
    ensures Allowed(a, run) && Matches(F.Next(c, e), Run(a, run))
  {
    hide F.Inv, Inv, Matches, Next, F.Inserts, F.InsertRequest, F.InsertFromRun, F.CommitCleanup, F.At, Allowed, Run;
    run := [];
    NoEvent(a);
    if e.EInsertRequest? && F.At(c, e.tx, false, F.ImageClear) {
      run := PinStep(c, e.tx, a);
    } else if e.EInsertFromRun? && F.Inserts(c, e.tx) {
      run := TakeStep(c, e.tx, a);
    } else if e.EReadImage? && F.At(F.Next(c, e), e.tx, true, F.ImageRead) && !F.At(c, e.tx, true, F.ImageRead) {
      run := ReadStep(c, e.tx, a);
    } else if e.ECommitCleanup? && e.tx in c.cleaners {
      run := CommitMatches(c, e.tx, a);
    } else if e.EDeleteImage? && F.Next(c, e) != c {
      run := DeleteMatches(c, e.image, a);
    } else {
      SilentStep(c, e, a);
    }
  }

  lemma PinStep(c: F.State, t: Id, a: State) returns (run: seq<Event>)
    requires Matches(c, a) && F.Inv(c) && F.At(c, t, false, F.ImageClear)
    ensures Allowed(a, run) && Matches(F.InsertRequest(c, t), Run(a, run))
  {
    hide Matches, F.Inv, F.InsertRequest, Pin;
    run := [EPin(c.creators[t].screenshot)];
    PinMatches(c, t, a);
    OneEvent(a, run[0]);
  }

  lemma TakeStep(c: F.State, t: Id, a: State) returns (run: seq<Event>)
    requires Matches(c, a) && F.Inv(c) && F.Inserts(c, t)
    ensures Allowed(a, run) && Matches(F.InsertFromRun(c, t), Run(a, run))
  {
    hide Matches, F.Inv, F.InsertFromRun, TakeForRun;
    run := [ETakeForRun(t)];
    TakeMatches(c, t, a);
    OneEvent(a, run[0]);
  }

  lemma ReadStep(c: F.State, t: Id, a: State) returns (run: seq<Event>)
    requires Matches(c, a) && F.Inv(c)
    requires F.At(F.ReadImage(c, t), t, true, F.ImageRead) && !F.At(c, t, true, F.ImageRead)
    ensures Allowed(a, run) && Matches(F.ReadImage(c, t), Run(a, run))
  {
    hide Matches, F.Inv, ReadForRun;
    run := [EReadForRun(t, c.creators[t].screenshot)];
    ReadMatches(c, t, a);
    OneEvent(a, run[0]);
  }

  lemma SilentStep(c: F.State, e: F.Event, a: State)
    requires F.Inv(c) && F.Fair(c, e) && Matches(c, a) && !e.EUpload?
    requires !(e.EInsertRequest? && F.At(c, e.tx, false, F.ImageClear)) && !(e.EInsertFromRun? && F.Inserts(c, e.tx))
    requires !(e.EReadImage? && F.At(F.Next(c, e), e.tx, true, F.ImageRead) && !F.At(c, e.tx, true, F.ImageRead))
    requires !(e.ECommitCleanup? && e.tx in c.cleaners) && !(e.EDeleteImage? && F.Next(c, e) != c)
    ensures Matches(F.Next(c, e), a)
  {
    var c' := F.Next(c, e);
    SilentImages(c, e);
    forall t | F.At(c', t, true, F.ImageRead)
      ensures F.At(c, t, true, F.ImageRead) && c'.creators[t].screenshot == c.creators[t].screenshot
    {
      R.WaitsBefore(c, e, t);
    }
    hide F.Inv, F.Next, F.Fair, Matches;
    SilentMatches(c, c', a);
  }

  lemma SilentImages(c: F.State, e: F.Event)
    requires !e.EUpload?
    requires !(e.EInsertRequest? && F.At(c, e.tx, false, F.ImageClear)) && !(e.EInsertFromRun? && F.Inserts(c, e.tx))
    requires !(e.ECommitCleanup? && e.tx in c.cleaners) && !(e.EDeleteImage? && F.Next(c, e) != c)
    ensures R.SameImages(c, F.Next(c, e))
  {
    if e.EInsertRequest? || e.EInsertFromRun? || e.ECommitCleanup? || e.EDeleteImage? {
    } else {
      R.OthersSameImages(c, e);
    }
  }

  predicate NoUploads(run: seq<F.Event>) { forall i :: 0 <= i < |run| ==> !run[i].EUpload? }

  /** Every run of statements, over images that are there from the start, is matched by a run of the artifact
      protocol's transactions. */
  lemma {:induction false} RunSimulated(c: F.State, run: seq<F.Event>, a: State) returns (matched: seq<Event>)
    requires F.Inv(c) && F.FairRun(c, run) && NoUploads(run) && Inv(a) && Matches(c, a)
    ensures Allowed(a, matched) && Matches(F.Run(c, run), Run(a, matched))
    decreases |run|
  {
    hide F.Inv, Inv, F.Next, F.Fair, Matches, Allowed, Run;
    if run == [] {
      matched := [];
      NoEvent(a);
    } else {
      var first := StepSimulated(c, run[0], a);
      R.StepKeeps(c, run[0]);
      RunKeeps(a, first);
      var rest := RunSimulated(F.Next(c, run[0]), run[1..], Run(a, first));
      matched := first + rest;
      RunConcat(a, first, rest);
      AllowedConcat(a, first, rest);
    }
  }

  lemma {:induction false} AllowedConcat(a: State, first: seq<Event>, rest: seq<Event>)
    requires Allowed(a, first) && Allowed(Run(a, first), rest)
    ensures Allowed(a, first + rest)
    decreases |first|
  {
    hide Next, Fair, Fenced;
    if first == [] {
      assert first + rest == rest;
    } else {
      AllowedConcat(Next(a, first[0]), first[1..], rest);
      assert (first + rest)[1..] == first[1..] + rest && (first + rest)[0] == first[0];
    }
  }

  // -------------------------------------------------------------------------------- what follows

  /** The last transaction of a screenshot upload is the flow's upload of the same ID. */
  lemma UploadMatches(c: F.State, a: State, t: Id, now: Time)
    requires Matches(c, a) && F.Inv(c) && Inv(a) && MayInsert(a, t) && a.attempts[t].scope.path.ArtifactUpload?
    requires a.attempts[t].resource !in c.uploaded
    requires NewRow(a.attempts[t], RequestScreenshot, a.records[a.attempts[t].scope].createdAt).Valid()
    ensures Matches(F.Upload(c, a.attempts[t].resource), FinishScreenshot(a, t, now))
  {
    hide Kept, Tidy, F.Inv, Matches, FinishScreenshot, F.Upload, Taken;
    var attempt := a.attempts[t];
    var row := NewRow(attempt, RequestScreenshot, a.records[attempt.scope].createdAt);
    MayInsertIsOpen(a, t);
    CurrentInsertIsFree(a, t, row);
    ScreenshotInserted(a, t, now);
    FreshImage(c, attempt.resource);
    RowMatches(c, a, FinishScreenshot(a, t, now), row);
  }

  lemma RowMatches(c: F.State, a: State, a': State, row: Artifact)
    requires Matches(c, a) && row.id !in c.images && row.id !in c.reserved
    requires row.purpose == RequestScreenshot && row.storageKey !in a.tasks
    requires a'.artifacts == a.artifacts[row.id := row] && a'.tasks == a.tasks && a'.readers == a.readers
    requires a'.materials == a.materials && a'.pinned == a.pinned && a'.strayed == a.strayed
    ensures Matches(F.Upload(c, row.id), a')
  {
    SameRequests(c, F.Upload(c, row.id));
    hide F.Referenced;
  }

  lemma FreshImage(c: F.State, image: Id)
    requires F.Inv(c) && image !in c.uploaded
    ensures image !in c.images && image !in c.reserved
  {
  }

  lemma ScreenshotInserted(a: State, t: Id, now: Time)
    requires MayInsert(a, t) && a.attempts[t].scope.path.ArtifactUpload?
    requires a.records[a.attempts[t].scope].hash == a.attempts[t].upload
    requires var row := NewRow(a.attempts[t], RequestScreenshot, a.records[a.attempts[t].scope].createdAt);
             row.Valid() && !Taken(a.artifacts, row)
    ensures var row := NewRow(a.attempts[t], RequestScreenshot, a.records[a.attempts[t].scope].createdAt);
            var a' := FinishScreenshot(a, t, now);
            && a'.artifacts == a.artifacts[row.id := row] && a'.tasks == a.tasks && a'.readers == a.readers
            && a'.materials == a.materials && a'.pinned == a.pinned && a'.strayed == a.strayed
  {
    hide Artifact.Valid, Taken, NewRow, EncodeArtifact;
  }

  /** The two accounts of what goes wrong agree: a request refers to an image that is reserved exactly if, on the
      other side, a reference strayed. */
  lemma ClearIsUnstrayed(c: F.State, a: State)
    requires Matches(c, a) && F.Inv(c) && Inv(a)
    ensures R.ImagesClear(c) <==> a.strayed == {}
  {
    hide Inv, F.Inv, F.Referenced;
    ReferencesKept(c);
    ReferencesSorted(a);
    forall r | r in c.requests ensures F.Referenced(c, c.requests[r].screenshot) {
      ReferredTo(c, r);
    }
    if i :| i in a.strayed {
      assert F.Referenced(c, i) && i in c.reserved;
      var r := Referrer(c, i);
    }
  }

  lemma ReferredTo(c: F.State, r: Id)
    requires r in c.requests
    ensures F.Referenced(c, c.requests[r].screenshot)
  {
  }

  lemma Referrer(c: F.State, i: Id) returns (r: Id)
    requires F.Referenced(c, i)
    ensures r in c.requests && c.requests[r].screenshot == i
  {
    r :| r in c.requests && c.requests[r].screenshot == i;
  }

  lemma ReferencesSorted(a: State)
    requires Inv(a)
    ensures forall i :: i in a.pinned ==> i in a.artifacts && a.artifacts[i].storageKey !in a.tasks
    ensures forall i :: i in a.strayed ==> i in a.artifacts && a.artifacts[i].storageKey in a.tasks
  {
  }

  lemma ReferencesKept(c: F.State)
    requires F.Inv(c)
    ensures forall r :: r in c.requests ==> c.requests[r].screenshot in c.images
  {
  }

  /** Whole runs: a run of the flow goes with a run of transactions that takes and reserves the same images, and a
      request refers to a reserved image after the one exactly if a reference strayed in the other. */
  lemma FlowRefines(c: F.State, run: seq<F.Event>, a: State) returns (matched: seq<Event>)
    requires F.Inv(c) && F.FairRun(c, run) && NoUploads(run) && Inv(a) && Matches(c, a)
    ensures Allowed(a, matched) && Matches(F.Run(c, run), Run(a, matched))
    ensures R.ImagesClear(F.Run(c, run)) <==> Run(a, matched).strayed == {}
  {
    hide F.Inv, Inv, Matches, Allowed, Run, F.Run, F.FairRun, R.ImagesClear;
    matched := RunSimulated(c, run, a);
    RunKeeps(a, matched);
    R.RunKeeps(c, run);
    ClearIsUnstrayed(F.Run(c, run), Run(a, matched));
  }
}
