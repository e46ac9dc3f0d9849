/** Whole runs of the support flow: one live request per user, requests and sessions in step, and which
    referenced images may be reserved for deletion. */
module SupportRuns {
  import opened Common
  import opened Entities
  import opened SupportFlow

  lemma CreatorStepKeeps(s: State, e: Event)
    requires Inv(s) && Fair(s, e)
    requires e.OfCreator()
    ensures Inv(Next(s, e))
  {
    hide Inv, LockUser, CheckActive, CheckOpen, LockImage, CheckReserved, InsertRequest, CheckFlow, ReadImage,
         InsertFromRun, Leave;
    match e
    case ELockUser(tx, user, request, screenshot, fromRun) => LockUserKeeps(s, tx, user, request, screenshot, fromRun);
    case ECheckActive(tx) => CheckActiveKeeps(s, tx);
    case ECheckOpen(tx) => CheckOpenKeeps(s, tx);
    case ELockImage(tx) => LockImageKeeps(s, tx);
    case ECheckReserved(tx) => CheckReservedKeeps(s, tx);
    case EInsertRequest(tx) => InsertRequestKeeps(s, tx);
    case ECheckFlow(tx) => CheckFlowKeeps(s, tx);
    case EReadImage(tx) => ReadImageKeeps(s, tx);
    case EInsertFromRun(tx) => InsertFromRunKeeps(s, tx);
    case ELeave(tx) => LeaveKeeps(s, tx);
  }

  lemma PairStepKeeps(s: State, e: Event)
    requires Inv(s) && Fair(s, e) && e.OfPair()
    ensures Inv(Next(s, e))
  {
    hide Inv, Call, Cancel, Accept, Resolve;
    match e
    case ECall(request, session, expected) => CallKeeps(s, request, session, expected);
    case ECancel(request, expected) => CancelKeeps(s, request, expected);
    case EAccept(session, consented, expected) => AcceptKeeps(s, session, consented, expected);
    case EResolve(session, createGuide, expected) => ResolveKeeps(s, session, createGuide, expected);
  }

  lemma ImageStepKeeps(s: State, e: Event)
    requires Inv(s) && Fair(s, e) && e.OfImages()
    ensures Inv(Next(s, e))
  {
    hide Inv, Upload, BeginCleanup, LockListed, CheckReferences, CheckTask, InsertTask, CommitCleanup, AbortCleanup,
         DeleteImage;
    match e
    case EUpload(image) => UploadKeeps(s, image);
    case EBeginCleanup(tx, stale) => BeginCleanupKeeps(s, tx, stale);
    case ELockListed(tx, image) => LockListedKeeps(s, tx, image);
    case ECheckReferences(tx, image, other) => CheckReferencesKeeps(s, tx, image, other);
    case ECheckTask(tx, image) => CheckTaskKeeps(s, tx, image);
    case EInsertTask(tx, image) => InsertTaskKeeps(s, tx, image);
    case ECommitCleanup(tx) => CommitCleanupKeeps(s, tx);
    case EAbortCleanup(tx) => AbortCleanupKeeps(s, tx);
    case EDeleteImage(image) => DeleteImageKeeps(s, image);
  }

  lemma StepKeeps(s: State, e: Event)
    requires Inv(s) && Fair(s, e)
    ensures Inv(Next(s, e))
  {
    hide Inv, Next, Fair, Event.OfCreator, Event.OfPair, Event.OfSession;
    if e.OfCreator() {
      CreatorStepKeeps(s, e);
    } else if e.OfPair() {
      PairStepKeeps(s, e);
    } else if e.OfSession() {
      SessionStepKeeps(s, e);
    } else {
      ImageStepKeeps(s, e);
    }
  }

  lemma {:induction false} RunKeeps(s: State, run: seq<Event>)
    requires Inv(s) && FairRun(s, run)
    ensures Inv(Run(s, run))
    decreases |run|
  {
    hide Inv, Next, Fair;
    if run != [] {
      StepKeeps(s, run[0]);
      RunKeeps(Next(s, run[0]), run[1..]);
    }
  }

  // --------------------------------------------------------------------------------- theorems

  /** In every reachable state a user has at most one live request, though two statements look for one. */
  lemma OneLiveRequest(run: seq<Event>, p: Id, q: Id)
    requires FairRun(EMPTY, run)
    requires var s := Run(EMPTY, run);
             Live(s.requests, s.sessions, p) && Live(s.requests, s.sessions, q) && s.requests[p].user == s.requests[q].user
    ensures p == q
  {
    EmptyInv();
    RunKeeps(EMPTY, run);
  }

  /** Requests and sessions move in step: RINGING with PENDING, ACTIVE with IN_SUPPORT, every later state with
      RESOLVED; a cancelled request has no session; and each points to the other. */
  lemma InLockstep(run: seq<Event>, session: Id)
    requires FairRun(EMPTY, run) && session in Run(EMPTY, run).sessions
    ensures var s := Run(EMPTY, run); var n := s.sessions[session];
            && n.request in s.requests && s.requests[n.request].session == Some(session)
            && s.requests[n.request].user == n.user
            && (n.status == Ringing <==> s.requests[n.request].status == Pending)
            && (n.status == Active <==> s.requests[n.request].status == InSupport)
            && (n.status !in {Ringing, Active} <==> s.requests[n.request].status == Resolved)
  {
    EmptyInv();
    RunKeeps(EMPTY, run);
    var s := Run(EMPTY, run);
    assert InStep(s.requests[s.sessions[session].request], s.sessions);
  }

  /** A transaction about to insert finds no live request of its user: neither unique index can refuse it. */
  lemma InsertMeetsNoLive(run: seq<Event>, tx: Id, r: Id)
    requires FairRun(EMPTY, run)
    requires At(Run(EMPTY, run), tx, false, ImageClear) || At(Run(EMPTY, run), tx, true, ImageRead)
    requires r in Run(EMPTY, run).requests && Run(EMPTY, run).requests[r].user == Run(EMPTY, run).creators[tx].user
    ensures !Live(Run(EMPTY, run).requests, Run(EMPTY, run).sessions, r)
  {
    EmptyInv();
    RunKeeps(EMPTY, run);
    var s := Run(EMPTY, run);
    assert StageOk(s.creators[tx], s.requests, s.sessions);
  }

  predicate CanBecome(before: RequestStatus, after: RequestStatus) {
    || (before == Pending && after in {InSupport, Cancelled})
    || (before == InSupport && after == Resolved)
  }

  /** The request is still there, refers to the same image, and its status moved as the domain allows. */
  predicate Continues(s: State, s': State, r: Id)
    requires r in s.requests
  {
    && r in s'.requests
    && s'.requests[r].screenshot == s.requests[r].screenshot && s'.requests[r].fromRun == s.requests[r].fromRun
    && (s'.requests[r].status == s.requests[r].status || CanBecome(s.requests[r].status, s'.requests[r].status))
  }

  lemma InsertContinues(s: State, tx: Id, r: Id)
    requires r in s.requests && CreatorsOk(s.creators, s.requests, s.sessions)
    ensures Continues(s, InsertRequest(s, tx), r) && Continues(s, InsertFromRun(s, tx), r)
  {
    assert tx in s.creators ==> StageOk(s.creators[tx], s.requests, s.sessions);
    hide LockedByOther, CreatorsOk;
  }

  lemma CreatorStepContinues(s: State, e: Event, r: Id)
    requires r in s.requests && Inv(s) && e.OfCreator()
    ensures Continues(s, Next(s, e), r)
  {
    if e.EInsertRequest? || e.EInsertFromRun? {
      InsertContinues(s, e.tx, r);
    } else {
      StagesKeepRequests(s, e);
    }
    hide Next, Inv;
  }

  lemma StagesKeepRequests(s: State, e: Event)
    requires e.OfCreator() && !e.EInsertRequest? && !e.EInsertFromRun?
    ensures Next(s, e).requests == s.requests && Next(s, e).sessions == s.sessions
  {
    hide LockedByOther, HasActiveRequest, HasOpenSession, At;
  }

  lemma FlowStepContinues(s: State, e: Event, r: Id)
    requires r in s.requests && (e.OfPair() || e.OfSession())
    ensures Continues(s, Next(s, e), r)
  {
    hide Accepted, Resolution;
  }

  lemma ImageStepContinues(s: State, e: Event, r: Id)
    requires r in s.requests && e.OfImages()
    ensures Continues(s, Next(s, e), r)
  {
    hide LockedByOther, Referenced;
  }

  lemma StepContinues(s: State, e: Event, r: Id)
    requires r in s.requests && Inv(s)
    ensures Continues(s, Next(s, e), r)
  {
    hide Inv, Continues, Next, Event.OfCreator, Event.OfPair, Event.OfSession;
    if e.OfCreator() {
      CreatorStepContinues(s, e, r);
    } else if e.OfPair() || e.OfSession() {
      FlowStepContinues(s, e, r);
    } else {
      ImageStepContinues(s, e, r);
    }
  }

  /** The row moved along the table, if at all, and ended only for a reason that its state admits. */
  predicate FollowsTable(before: Session, after: Session) {
    && (before.status == after.status || before.status.CanTransitionTo(after.status))
    && (before.status != Ended && after.status == Ended ==>
          after.reason.Some? && CanEnd(before.status, after.reason.value))
    && (before.status == Ended ==> after == before)
  }

  lemma PairFollowsTable(s: State, e: Event, session: Id)
    requires session in s.sessions && Fair(s, e) && e.OfPair()
    ensures session in Next(s, e).sessions && FollowsTable(s.sessions[session], Next(s, e).sessions[session])
  {
  }

  /** The step writes one row, if any. */
  predicate OwnRowFollows(s: State, e: Event)
    requires e.OfSession()
  {
    var s' := Next(s, e);
    if e.session !in s.sessions then s' == s
    else
      && s' == s.(sessions := s'.sessions) && s'.sessions.Keys == s.sessions.Keys
      && s'.sessions - {e.session} == s.sessions - {e.session}
      && FollowsTable(s.sessions[e.session], s'.sessions[e.session])
  }

  lemma BatchStepFollows(s: State, e: Event)
    requires e.ECreateBatch? || e.ECompleteBatch?
    ensures OwnRowFollows(s, e)
  {
  }

  lemma DraftStepFollows(s: State, e: Event)
    requires e.EFinishGeneration? || e.ECompleteReview?
    ensures OwnRowFollows(s, e)
  {
  }

  lemma EndStepFollows(s: State, e: Event)
    requires e.EEndWithoutGuide? || e.EEndSaved?
    ensures OwnRowFollows(s, e)
  {
  }

  lemma StepFollowsTable(s: State, e: Event, session: Id)
    requires session in s.sessions && e.OfSession()
    ensures session in Next(s, e).sessions && FollowsTable(s.sessions[session], Next(s, e).sessions[session])
  {
    hide Next, FollowsTable;
    if e.ECreateBatch? || e.ECompleteBatch? {
      BatchStepFollows(s, e);
    } else if e.EFinishGeneration? || e.ECompleteReview? {
      DraftStepFollows(s, e);
    } else {
      EndStepFollows(s, e);
    }
    SameRowFollows(s.sessions[session]);
    if session != e.session {
      assert (Next(s, e).sessions - {e.session})[session] == s.sessions[session] == (s.sessions - {e.session})[session];
    }
  }

  lemma SameRowFollows(n: Session)
    ensures FollowsTable(n, n)
  {
  }

  /** No session skips a state or goes back, whoever moves it, and it ends only for a reason that its state
      admits; the services check neither table, they check each command's own condition. */
  lemma SessionFollowsTable(s: State, e: Event, session: Id)
    requires session in s.sessions && Fair(s, e)
    ensures session in Next(s, e).sessions
    ensures var before, after := s.sessions[session], Next(s, e).sessions[session];
            && (before.status == after.status || before.status.CanTransitionTo(after.status))
            && (before.status != Ended && after.status == Ended ==>
                  after.reason.Some? && CanEnd(before.status, after.reason.value))
            && (before.status == Ended ==> after == before)
  {
    hide LockedByOther, Referenced, HasActiveRequest, HasOpenSession, At, Inserts;
    if e.OfPair() {
      hide Next, Fair;
      PairFollowsTable(s, e, session);
    } else if e.OfSession() {
      hide Next, Fair;
      StepFollowsTable(s, e, session);
    } else {
      assert Next(s, e).sessions == s.sessions;
      hide Next;
    }
  }

  /** In every reachable state every session row passes the CHECK of its table: none of the UPDATEs, which
      do not look at the columns they leave, is refused by it. */
  lemma RowsPassCheck(run: seq<Event>, session: Id)
    requires FairRun(EMPTY, run) && session in Run(EMPTY, run).sessions
    ensures Run(EMPTY, run).sessions[session].RowOk()
  {
    EmptyInv();
    RunKeeps(EMPTY, run);
  }

  lemma {:induction false} RunKeepsRequest(s: State, run: seq<Event>, r: Id)
    requires r in s.requests && FairRun(s, run) && Inv(s)
    ensures var s' := Run(s, run);
            && r in s'.requests && s'.requests[r].screenshot == s.requests[r].screenshot
            && s'.requests[r].fromRun == s.requests[r].fromRun
    decreases |run|
  {
    hide Inv, Next, Fair;
    if run != [] {
      StepKeeps(s, run[0]);
      StepContinues(s, run[0], r);
      RunKeepsRequest(Next(s, run[0]), run[1..], r);
    }
  }

  /** Once a plain request refers to an image, the image has its row and no deletion reserved, ever after. */
  lemma ReferencedImageStays(before: seq<Event>, after: seq<Event>, r: Id)
    requires FairRun(EMPTY, before) && FairRun(Run(EMPTY, before), after)
    requires r in Run(EMPTY, before).requests && !Run(EMPTY, before).requests[r].fromRun
    ensures var s := Run(Run(EMPTY, before), after); var image := Run(EMPTY, before).requests[r].screenshot;
            image in s.images && image !in s.reserved
  {
    EmptyInv();
    RunKeeps(EMPTY, before);
    RunKeeps(Run(EMPTY, before), after);
    RunKeepsRequest(Run(EMPTY, before), after, r);
  }

  // ----------------------------------------------------------------- requests from a guide run
  //
  // A request created from a guide run reads its image without locking the row and inserts later. A cleanup
  // that commits in between reserves the image all the same.

  ghost predicate ImagesClear(s: State) {
    forall r :: r in s.requests ==> s.requests[r].screenshot in s.images && s.requests[r].screenshot !in s.reserved
  }

  /** While all referenced images are clear, an insert from a guide run keeps them so exactly when its own
      image has no deletion reserved: the check that the plain request makes under the row lock. */
  lemma InsertFromRunExact(s: State, tx: Id)
    requires Inv(s) && ImagesClear(s) && At(s, tx, true, ImageRead)
    requires s.creators[tx].screenshot in s.images && !LockedByOther(s, tx, s.creators[tx].screenshot)
    ensures ImagesClear(InsertFromRun(s, tx)) <==> s.creators[tx].screenshot !in s.reserved
  {
    InsertClear(s, tx);
  }

  lemma InsertClear(s: State, tx: Id)
    requires tx in s.creators && CreatorsOk(s.creators, s.requests, s.sessions)
    ensures ImagesClear(Insert(s, tx)) <==>
              ImagesClear(s) && s.creators[tx].screenshot in s.images && s.creators[tx].screenshot !in s.reserved
  {
    var c := s.creators[tx];
    var s' := Insert(s, tx);
    assert StageOk(c, s.requests, s.sessions);
    hide CreatorsOk;
    assert c.request in s'.requests && s'.requests[c.request].screenshot == c.screenshot;
    assert forall r :: r in s.requests ==> r in s'.requests && s'.requests[r] == s.requests[r];
  }

  lemma CleanupClear(s: State, e: Event)
    requires LocksOk(s) && (e.ECommitCleanup? || e.EDeleteImage?)
    ensures ImagesClear(Next(s, e)) <==> ImagesClear(s)
  {
    hide LockedByOther;
    if e.ECommitCleanup? && e.tx in s.cleaners {
      assert CleanerOk(s.cleaners[e.tx], s.requests, s.images);
      hide LocksOk;
    }
  }

  /** The step changes neither which image a request refers to nor which images are there and reserved. */
  predicate SameImages(s: State, s': State) {
    && s'.requests.Keys == s.requests.Keys && s'.images == s.images && s'.reserved == s.reserved
    && forall r :: r in s.requests ==> s'.requests[r].screenshot == s.requests[r].screenshot
  }

  lemma OthersSameImages(s: State, e: Event)
    requires !e.EInsertRequest? && !e.EInsertFromRun? && !e.ECommitCleanup? && !e.EDeleteImage? && !e.EUpload?
    ensures SameImages(s, Next(s, e))
  {
    hide LockedByOther, Referenced, HasActiveRequest, HasOpenSession, At, Accepted, Resolution;
  }

  lemma InsertStepClear(s: State, e: Event)
    requires Inv(s) && (e.EInsertFromRun? || e.EInsertRequest?)
    ensures ImagesClear(Next(s, e)) <==>
              ImagesClear(s) && (e.EInsertFromRun? && Inserts(s, e.tx) ==> s.creators[e.tx].screenshot !in s.reserved)
  {
    if e.EInsertFromRun? && Inserts(s, e.tx) {
      InsertClear(s, e.tx);
    }
    if e.EInsertRequest? && At(s, e.tx, false, ImageClear) {
      assert ImageOk(s.creators[e.tx], s.images, s.reserved);
      InsertClear(s, e.tx);
    }
    hide Inv, LockedByOther, Insert, ImagesClear;
  }

  /** Only the insert from a guide run makes a clear state unclear, and nothing makes an unclear state clear
      again: the foreign key refuses the deletion of a referenced row for ever. */
  lemma StepClear(s: State, e: Event)
    requires Inv(s) && Fair(s, e)
    ensures ImagesClear(Next(s, e)) <==>
              ImagesClear(s) && (e.EInsertFromRun? && Inserts(s, e.tx) ==> s.creators[e.tx].screenshot !in s.reserved)
  {
    assert ReferencesOk(s.requests, s.images, s.reserved) && LocksOk(s);
    if e.EInsertFromRun? || e.EInsertRequest? {
      InsertStepClear(s, e);
    }
    hide Inv, LockedByOther, CreatorsOk, Insert, At;
    if e.EInsertFromRun? || e.EInsertRequest? {
      hide Next;
    } else if e.ECommitCleanup? || e.EDeleteImage? {
      CleanupClear(s, e);
    } else if !e.EUpload? {
      OthersSameImages(s, e);
      hide Next;
    }
  }

  // ---------------------------------------------------------------------------- the race, in a run

  /** The state after the first `k` steps. */
  ghost function After(run: seq<Event>, k: nat): State
    requires k <= |run|
  {
    Run(EMPTY, run[..k])
  }

  lemma {:induction false} FairPrefix(s: State, run: seq<Event>, k: nat)
    requires FairRun(s, run) && k < |run|
    ensures FairRun(s, run[..k]) && Fair(Run(s, run[..k]), run[k])
    decreases k
  {
    hide Next, Fair;
    if k > 0 {
      FairPrefix(Next(s, run[0]), run[1..], k - 1);
      assert run[..k][1..] == run[1..][..k - 1] && run[..k][0] == run[0];
    }
  }

  lemma PrefixStep(run: seq<Event>, k: nat)
    requires FairRun(EMPTY, run) && k < |run|
    ensures Inv(After(run, k)) && Fair(After(run, k), run[k])
    ensures After(run, k + 1) == Next(After(run, k), run[k])
  {
    hide Inv, Next, Fair;
    EmptyInv();
    FairPrefix(EMPTY, run, k);
    RunKeeps(EMPTY, run[..k]);
    RunConcat(EMPTY, run[..k], run[k]);
    assert run[..k + 1] == run[..k] + [run[k]];
  }

  /** The transaction has read its image and has not inserted yet. */
  ghost predicate Waits(run: seq<Event>, k: nat, t: Id)
    requires k <= |run|
  {
    At(After(run, k), t, true, ImageRead)
  }

  /** Step `j` commits a cleanup that reserves the image that the waiting transaction has read. */
  ghost predicate Overtakes(run: seq<Event>, j: nat, t: Id)
    requires j < |run|
  {
    var s := After(run, j);
    && Waits(run, j, t)
    && run[j].ECommitCleanup? && run[j].tx in s.cleaners
    && s.creators[t].screenshot in s.cleaners[run[j].tx].pending
  }

  /** A cleanup commits at `j` between the read and the insert, at `k`, of one transaction, for its image. */
  ghost predicate Race(run: seq<Event>, j: nat, k: nat, t: Id) {
    && j < k < |run| && Overtakes(run, j, t)
    && (forall m :: j <= m <= k ==> Waits(run, m, t))
    && run[k] == EInsertFromRun(t) && Inserts(After(run, k), t)
  }

  ghost predicate RaceBefore(run: seq<Event>, n: nat) {
    exists j: nat, k: nat, t :: k < n && Race(run, j, k, t)
  }

  /** A transaction that has read its image had read it before, unless this step is the read. */
  lemma WaitsBefore(s: State, e: Event, t: Id)
    requires Inv(s) && Fair(s, e) && At(Next(s, e), t, true, ImageRead)
    ensures if At(s, t, true, ImageRead) then Next(s, e).creators[t] == s.creators[t]
            else e == EReadImage(t) && Next(s, e).creators[t].screenshot !in Next(s, e).reserved
  {
    hide Inv, LockedByOther, Referenced, HasActiveRequest, HasOpenSession, Accepted, Resolution;
    if e.OfPair() || e.OfSession() || e.OfImages() {
      assert Next(s, e).creators == s.creators;
    }
  }

  /** Nothing but the commit of a cleanup reserves an image. */
  lemma ReservedBefore(s: State, e: Event, image: Id)
    requires image in Next(s, e).reserved && image !in s.reserved
    ensures e.ECommitCleanup? && e.tx in s.cleaners && image in s.cleaners[e.tx].pending
  {
    hide LockedByOther, Referenced, HasActiveRequest, HasOpenSession, Accepted, Resolution, At, Inserts;
  }

  /** A used ID whose image is reserved or gone stays so. */
  predicate Doomed(s: State, image: Id) {
    image in s.uploaded && (image in s.reserved || image !in s.images)
  }

  lemma StaysDoomed(s: State, e: Event, image: Id)
    requires Fair(s, e) && Doomed(s, image)
    ensures Doomed(Next(s, e), image)
  {
    hide LockedByOther, Referenced, HasActiveRequest, HasOpenSession, Accepted, Resolution, At, Inserts;
  }

  /** A waiting transaction finds its image reserved only if a cleanup overtook it. */
  lemma {:induction false} ReservedWasOvertaken(run: seq<Event>, k: nat, t: Id) returns (j: nat)
    requires FairRun(EMPTY, run) && k <= |run| && Waits(run, k, t)
    requires After(run, k).creators[t].screenshot in After(run, k).reserved
    ensures j < k && Overtakes(run, j, t) && forall m :: j <= m <= k ==> Waits(run, m, t)
    decreases k
  {
    hide Inv, Next, Fair;
    assert k > 0 by { if k == 0 { EmptyWaitsNot(run, t); } }
    PrefixStep(run, k - 1);
    var s, e := After(run, k - 1), run[k - 1];
    WaitsBefore(s, e, t);
    assert Waits(run, k - 1, t);
    var image := s.creators[t].screenshot;
    if image in s.reserved {
      j := ReservedWasOvertaken(run, k - 1, t);
    } else {
      ReservedBefore(s, e, image);
      j := k - 1;
    }
  }

  lemma EmptyWaitsNot(run: seq<Event>, t: Id)
    ensures !Waits(run, 0, t)
  {
    assert run[..0] == [];
  }

  /** Once overtaken, the image stays reserved until it is gone. */
  lemma {:induction false} OvertakenIsDoomed(run: seq<Event>, j: nat, k: nat, t: Id)
    requires FairRun(EMPTY, run) && j < k <= |run| && Overtakes(run, j, t) && Waits(run, k, t)
    requires forall m :: j <= m <= k ==> Waits(run, m, t)
    ensures Doomed(After(run, k), After(run, k).creators[t].screenshot)
    decreases k
  {
    hide Inv, Next, Fair, CommitCleanup;
    PrefixStep(run, k - 1);
    var s, e := After(run, k - 1), run[k - 1];
    assert Waits(run, k - 1, t);
    WaitsBefore(s, e, t);
    if k - 1 == j {
      CommitDooms(s, e, s.creators[t].screenshot);
    } else {
      OvertakenIsDoomed(run, j, k - 1, t);
      StaysDoomed(s, e, s.creators[t].screenshot);
    }
  }

  lemma CommitDooms(s: State, e: Event, image: Id)
    requires Inv(s) && e.ECommitCleanup? && e.tx in s.cleaners && image in s.cleaners[e.tx].pending
    ensures Doomed(Next(s, e), image)
  {
    assert CleanerOk(s.cleaners[e.tx], s.requests, s.images) && LocksOk(s);
    hide Inv;
  }

  /** The exact condition, for all runs: every image that a request refers to keeps its row with no deletion
      reserved if and only if no cleanup commits between the read and the insert of a request from a guide
      run, for the image of that request. */
  lemma {:induction false} ImagesClearExact(run: seq<Event>, n: nat)
    requires FairRun(EMPTY, run) && n <= |run|
    ensures ImagesClear(After(run, n)) <==> !RaceBefore(run, n)
    decreases n
  {
    hide Inv, Next, Fair;
    if n == 0 {
      assert run[..0] == [];
    } else {
      ImagesClearExact(run, n - 1);
      PrefixStep(run, n - 1);
      var s, e := After(run, n - 1), run[n - 1];
      StepClear(s, e);
      LastRace(run, n - 1);
    }
  }

  lemma LastRace(run: seq<Event>, k: nat)
    requires FairRun(EMPTY, run) && k < |run|
    ensures var s, e := After(run, k), run[k];
            (e.EInsertFromRun? && Inserts(s, e.tx) && s.creators[e.tx].screenshot in s.reserved)
            <==> exists j: nat, t :: Race(run, j, k, t)
  {
    hide Inv, Next, Fair, LockedByOther;
    var s, e := After(run, k), run[k];
    if e.EInsertFromRun? && Inserts(s, e.tx) && s.creators[e.tx].screenshot in s.reserved {
      var j := ReservedWasOvertaken(run, k, e.tx);
      assert Race(run, j, k, e.tx);
    }
    forall j: nat, t | Race(run, j, k, t)
      ensures e.EInsertFromRun? && Inserts(s, e.tx) && s.creators[e.tx].screenshot in s.reserved
    {
      OvertakenIsDoomed(run, j, k, t);
    }
  }

  /** In the same words for the whole run. */
  lemma GuideRunImagesExact(run: seq<Event>)
    requires FairRun(EMPTY, run)
    ensures ImagesClear(Run(EMPTY, run)) <==> !exists j: nat, k: nat, t :: Race(run, j, k, t)
  {
    hide Inv, Next, Fair;
    ImagesClearExact(run, |run|);
    assert run[..|run|] == run;
  }

  // ---------------------------------------------------------------------------- a run with the race

  ghost predicate Reachable(s: State) {
    exists run :: FairRun(EMPTY, run) && Run(EMPTY, run) == s
  }

  lemma {:induction false} RunConcat(s: State, a: seq<Event>, e: Event)
    ensures Run(s, a + [e]) == Next(Run(s, a), e)
    ensures FairRun(s, a) && Fair(Run(s, a), e) ==> FairRun(s, a + [e])
    decreases |a|
  {
    hide Next, Fair;
    if a == [] {
      assert a + [e] == [e] && [e][1..] == [];
      assert Run(s, [e]) == Run(Next(s, e), []);
      assert FairRun(s, [e]) == (Fair(s, e) && FairRun(Next(s, e), []));
    } else {
      RunConcat(Next(s, a[0]), a[1..], e);
      assert (a + [e])[1..] == a[1..] + [e] && (a + [e])[0] == a[0];
    }
  }

  lemma Step(s: State, e: Event, s': State)
    requires Reachable(s) && Fair(s, e) && Next(s, e) == s'
    ensures Reachable(s')
  {
    hide Next, Fair;
    var run :| FairRun(EMPTY, run) && Run(EMPTY, run) == s;
    RunConcat(EMPTY, run, e);
  }

  /** One image is there and one transaction is on its way to a request for it. */
  function Creating(tx: Id, c: Creator): State {
    EMPTY.(images := {c.screenshot}, uploaded := {c.screenshot}, creators := map[tx := c])
  }

  /** A cleanup has got to this stage with the image. */
  function Cleaning(tx: Id, c: Creator, cleaner: Id, stages: nat): State {
    var i := {c.screenshot};
    Creating(tx, c).(cleaners := map[cleaner := Cleaner(
      i, if stages >= 1 then i else {}, if stages >= 2 then i else {}, if stages >= 3 then i else {},
      if stages >= 4 then i else {})])
  }

  lemma CreatorStarts(tx: Id, c: Creator)
    requires tx != "" && c.fromRun && c.stage == UserLocked
    ensures var s := EMPTY.(images := {c.screenshot}, uploaded := {c.screenshot});
            var e := ELockUser(tx, c.user, c.request, c.screenshot, true);
            Next(EMPTY, EUpload(c.screenshot)) == s && Fair(s, e) && Next(s, e) == Creating(tx, c)
    ensures Next(Creating(tx, c), ECheckFlow(tx)) == Creating(tx, c.(stage := FlowClear))
    ensures Next(Creating(tx, c.(stage := FlowClear)), EReadImage(tx)) == Creating(tx, c.(stage := ImageRead))
  {
  }

  lemma CreatorReads(tx: Id, c: Creator)
    requires tx != "" && c.fromRun && c.stage == UserLocked
    ensures Reachable(Creating(tx, c.(stage := ImageRead)))
  {
    assert FairRun(EMPTY, []) && Run(EMPTY, []) == EMPTY;
    CreatorStarts(tx, c);
    var s := EMPTY.(images := {c.screenshot}, uploaded := {c.screenshot});
    hide Reachable, Next, Creating;
    Step(EMPTY, EUpload(c.screenshot), s);
    Step(s, ELockUser(tx, c.user, c.request, c.screenshot, true), Creating(tx, c));
    Step(Creating(tx, c), ECheckFlow(tx), Creating(tx, c.(stage := FlowClear)));
    Step(Creating(tx, c.(stage := FlowClear)), EReadImage(tx), Creating(tx, c.(stage := ImageRead)));
  }

  lemma CleaningStarts(tx: Id, c: Creator, cleaner: Id)
    requires c.stage == ImageRead && tx != cleaner
    ensures Next(Creating(tx, c), EBeginCleanup(cleaner, {c.screenshot})) == Cleaning(tx, c, cleaner, 0)
    ensures Next(Cleaning(tx, c, cleaner, 0), ELockListed(cleaner, c.screenshot)) == Cleaning(tx, c, cleaner, 1)
  {
    hide At, Inserts, HasActiveRequest, HasOpenSession, Accepted, Resolution;
    var none: set<Id> := {};
    assert none + {c.screenshot} == {c.screenshot};
    assert BeginCleanup(Creating(tx, c), cleaner, {c.screenshot}).cleaners[cleaner].listed == {c.screenshot};
  }

  lemma CleaningChecks(tx: Id, c: Creator, cleaner: Id)
    ensures Next(Cleaning(tx, c, cleaner, 1), ECheckReferences(cleaner, c.screenshot, false)) == Cleaning(tx, c, cleaner, 2)
    ensures Next(Cleaning(tx, c, cleaner, 2), ECheckTask(cleaner, c.screenshot)) == Cleaning(tx, c, cleaner, 3)
  {
    hide LockedByOther, At, Inserts, HasActiveRequest, HasOpenSession, Accepted, Resolution;
    var none: set<Id> := {};
    assert none + {c.screenshot} == {c.screenshot};
  }

  lemma CleaningInserts(tx: Id, c: Creator, cleaner: Id)
    ensures Next(Cleaning(tx, c, cleaner, 3), EInsertTask(cleaner, c.screenshot)) == Cleaning(tx, c, cleaner, 4)
  {
    var none: set<Id> := {};
    assert none + {c.screenshot} == {c.screenshot};
  }

  lemma CleaningReserves(tx: Id, c: Creator, cleaner: Id)
    ensures Next(Cleaning(tx, c, cleaner, 4), ECommitCleanup(cleaner)) == Creating(tx, c).(reserved := {c.screenshot})
  {
    var none: set<Id> := {};
    assert none + {c.screenshot} == {c.screenshot};
    assert Cleaning(tx, c, cleaner, 4).cleaners - {cleaner} == map[];
  }

  /** A cleanup reserves the image that a waiting transaction has read. */
  lemma CleanupOvertakes(tx: Id, c: Creator, cleaner: Id)
    requires cleaner != "" && tx != cleaner && c.stage == ImageRead && Reachable(Creating(tx, c))
    ensures Reachable(Creating(tx, c).(reserved := {c.screenshot}))
  {
    CleaningStarts(tx, c, cleaner);
    CleaningChecks(tx, c, cleaner);
    CleaningInserts(tx, c, cleaner);
    CleaningReserves(tx, c, cleaner);
    hide Reachable, Next, Cleaning;
    Step(Creating(tx, c), EBeginCleanup(cleaner, {c.screenshot}), Cleaning(tx, c, cleaner, 0));
    Step(Cleaning(tx, c, cleaner, 0), ELockListed(cleaner, c.screenshot), Cleaning(tx, c, cleaner, 1));
    Step(Cleaning(tx, c, cleaner, 1), ECheckReferences(cleaner, c.screenshot, false), Cleaning(tx, c, cleaner, 2));
    Step(Cleaning(tx, c, cleaner, 2), ECheckTask(cleaner, c.screenshot), Cleaning(tx, c, cleaner, 3));
    Step(Cleaning(tx, c, cleaner, 3), EInsertTask(cleaner, c.screenshot), Cleaning(tx, c, cleaner, 4));
    Step(Cleaning(tx, c, cleaner, 4), ECommitCleanup(cleaner), Creating(tx, c).(reserved := {c.screenshot}));
  }

  /** The race happens: the read finds the image, a whole cleanup runs and commits, and the insert succeeds. */
  lemma ReservedImageGetsReferenced(user: Id, image: Id, cleaner: Id, tx: Id, request: Id)
    requires cleaner != "" && tx != "" && tx != cleaner
    ensures Reachable(EMPTY.(images := {image}, uploaded := {image}, reserved := {image},
                             requests := map[request := Request(user, image, true, Pending, None, 1)]))
  {
    var c := Creator(user, request, image, true, UserLocked);
    CreatorReads(tx, c);
    CleanupOvertakes(tx, c.(stage := ImageRead), cleaner);
    var s := Creating(tx, c.(stage := ImageRead)).(reserved := {image});
    assert s.creators - {tx} == map[];
    hide Reachable;
    Step(s, EInsertFromRun(tx), EMPTY.(images := {image}, uploaded := {image}, reserved := {image},
                                       requests := map[request := Request(user, image, true, Pending, None, 1)]));
  }

  // ------------------------------------------------------------------------- cleanup, check by check

  /** What a cleanup transaction finds out about one listed image: it takes the row if nobody else has it, passes it
      if neither a request nor a guide refers to it, and then if it has no task. */
  lemma CleanupChecksExactly(s: State, tx: Id, image: Id, other: bool)
    requires tx in s.cleaners
    ensures var c := s.cleaners[tx];
            && LockListed(s, tx, image) == s.(cleaners := s.cleaners[tx :=
                 if image in c.listed && image in s.images && !LockedByOther(s, tx, image)
                 then c.(locked := c.locked + {image}) else c])
            && CheckReferences(s, tx, image, other) == s.(cleaners := s.cleaners[tx :=
                 if image in c.locked && !other && forall r :: r in s.requests ==> s.requests[r].screenshot != image
                 then c.(unreferenced := c.unreferenced + {image}) else c])
            && CheckTask(s, tx, image) == s.(cleaners := s.cleaners[tx :=
                 if image in c.unreferenced && image !in s.reserved then c.(clear := c.clear + {image}) else c])
            && InsertTask(s, tx, image) == s.(cleaners := s.cleaners[tx :=
                 if image in c.clear then c.(pending := c.pending + {image}) else c])
            && CommitCleanup(s, tx).reserved == s.reserved + c.pending
  {
    assert s.cleaners[tx := s.cleaners[tx]] == s.cleaners;
    hide LockedByOther;
  }

  /** The last transaction of a deletion removes the row and its reservation exactly if no request refers to the
      image and nobody holds it. */
  lemma DeletesUnreferenced(s: State, image: Id)
    ensures DeleteImage(s, image) ==
              if image in s.reserved && !LockedByOther(s, "", image)
                 && forall r :: r in s.requests ==> s.requests[r].screenshot != image
              then s.(images := s.images - {image}, reserved := s.reserved - {image}) else s
  {
    hide LockedByOther;
  }

  // ------------------------------------------------------------------ a call and its guide, to the end

  /** Each step on the way to a guide happens exactly under its service's condition, and writes the session's row
      only. */
  lemma GuideStepsExactly(s: State, e: Event)
    requires e.ECreateBatch? || e.ECompleteBatch? || e.EFinishGeneration? || e.ECompleteReview?
    ensures var s' := Next(s, e); var id := e.session;
            var ok := id in s.sessions && match e
              case ECreateBatch(_, _, expected) =>
                && s.sessions[id].revision == expected && s.sessions[id].status == GeneratingGuide
                && s.sessions[id].decision == Some(CreateGuide) && s.sessions[id].batch.None?
              case ECompleteBatch(_, batch, _) =>
                && s.sessions[id].status == GeneratingGuide && s.sessions[id].batch == Some(batch)
                && s.sessions[id].job.None?
              case EFinishGeneration(_, _) => s.sessions[id].status == GeneratingGuide
              case ECompleteReview(_, _, expected) =>
                && s.sessions[id].revision == expected && s.sessions[id].status == ReviewingGuide
                && s.sessions[id].batch.Some? && s.sessions[id].job.Some?;
            if ok then
              && s' == s.(sessions := s'.sessions) && id in s'.sessions && s'.sessions - {id} == s.sessions - {id}
              && s'.sessions[id].revision == s.sessions[id].revision + 1
              && s'.sessions[id].status == (match e
                   case ECreateBatch(_, _, _) => GeneratingGuide
                   case ECompleteBatch(_, _, _) => GeneratingGuide
                   case EFinishGeneration(_, _) => ReviewingGuide
                   case ECompleteReview(_, _, _) => Ended)
            else s' == s
  {
  }

  /** The row of a session whose request was resolved with a guide to come. */
  function WithGuideToCome(request: Id, user: Id): Session {
    Session(request, user, GeneratingGuide, true, Some(CreateGuide), None, None, None, None, None, 3)
  }

  /** The state with these two rows. */
  function WithPair(s: State, request: Id, r: Request, session: Id, n: Session): State {
    s.(requests := s.requests[request := r], sessions := s.sessions[session := n])
  }

  lemma PairRewritten(s: State, request: Id, r: Request, r': Request, session: Id, n: Session, n': Session)
    ensures WithPair(WithPair(s, request, r, session, n), request, r', session, n') == WithPair(s, request, r', session, n')
  {
  }

  lemma CallRings(s: State, request: Id, session: Id)
    requires request in s.requests && s.requests[request].status == Pending && s.requests[request].session.None?
    ensures var r := s.requests[request];
            Next(s, ECall(request, session, r.revision))
            == WithPair(s, request, r.(session := Some(session), revision := r.revision + 1),
                        session, NewSession(request, r.user))
  {
  }

  lemma AcceptStarts(s: State, request: Id, r: Request, session: Id)
    requires r.status == Pending && r.session == Some(session)
    ensures Next(WithPair(s, request, r, session, NewSession(request, r.user)), EAccept(session, true, 1))
            == WithPair(s, request, r.(status := InSupport, revision := r.revision + 1),
                        session, NewSession(request, r.user).(status := Active, consented := true, revision := 2))
  {
    PairRewritten(s, request, r, r.(status := InSupport, revision := r.revision + 1), session, NewSession(request, r.user),
                  NewSession(request, r.user).(status := Active, consented := true, revision := 2));
  }

  lemma ResolveAsksForAGuide(s: State, request: Id, r: Request, session: Id)
    requires r.status == InSupport && r.session == Some(session)
    ensures var n := NewSession(request, r.user).(status := Active, consented := true, revision := 2);
            Next(WithPair(s, request, r, session, n), EResolve(session, true, 2))
            == WithPair(s, request, r.(status := Resolved, revision := r.revision + 1), session, WithGuideToCome(request, r.user))
  {
    PairRewritten(s, request, r, r.(status := Resolved, revision := r.revision + 1), session,
                  NewSession(request, r.user).(status := Active, consented := true, revision := 2),
                  WithGuideToCome(request, r.user));
  }

  lemma ThreeSteps(s: State, a: Event, b: Event, c: Event)
    ensures Run(s, [a, b, c]) == Next(Next(Next(s, a), b), c)
  {
    hide Next;
    RunJoins(s, [a, b], [c]);
    RunJoins(s, [a], [b]);
    assert [a, b, c] == [a, b] + [c] && [a, b] == [a] + [b];
    OneStep(s, a);
    OneStep(Next(s, a), b);
    OneStep(Next(Next(s, a), b), c);
    hide Run;
  }

  lemma OneStep(s: State, e: Event)
    ensures Run(s, [e]) == Next(s, e)
  {
    hide Next;
    assert [e][1..] == [] && Run(s, [e]) == Run(Next(s, e), []);
  }

  lemma CallsAndResolves(s: State, request: Id, session: Id)
    requires request in s.requests && s.requests[request].status == Pending && s.requests[request].session.None?
    ensures var r := s.requests[request];
            Run(s, [ECall(request, session, r.revision), EAccept(session, true, 1), EResolve(session, true, 2)])
            == WithPair(s, request, r.(status := Resolved, session := Some(session), revision := r.revision + 3),
                        session, WithGuideToCome(request, r.user))
  {
    hide Run, Next, WithPair, WithGuideToCome, NewSession;
    var r := s.requests[request];
    ThreeSteps(s, ECall(request, session, r.revision), EAccept(session, true, 1), EResolve(session, true, 2));
    CallRings(s, request, session);
    var called := r.(session := Some(session), revision := r.revision + 1);
    AcceptStarts(s, request, called, session);
    ResolveAsksForAGuide(s, request, called.(status := InSupport, revision := r.revision + 2), session);
  }

  /** The state with this row. */
  function WithSession(s: State, session: Id, n: Session): State { s.(sessions := s.sessions[session := n]) }

  lemma BatchStarts(s: State, session: Id, n: Session, batch: Id)
    requires CanCreateBatch(n)
    ensures Next(WithSession(s, session, n), ECreateBatch(session, batch, n.revision))
            == WithSession(s, session, n.(batch := Some(batch), revision := n.revision + 1))
  {
  }

  lemma BatchCompletes(s: State, session: Id, n: Session, batch: Id, job: Id)
    requires n.status == GeneratingGuide && n.batch == Some(batch) && n.job.None?
    ensures Next(WithSession(s, session, n), ECompleteBatch(session, batch, job))
            == WithSession(s, session, n.(job := Some(job), revision := n.revision + 1))
  {
  }

  lemma DraftsArrive(s: State, session: Id, n: Session, draft: Id)
    requires n.status == GeneratingGuide
    ensures Next(WithSession(s, session, n), EFinishGeneration(session, draft))
            == WithSession(s, session, n.(status := ReviewingGuide, draft := Some(draft), revision := n.revision + 1))
  {
  }

  lemma ReviewEnds(s: State, session: Id, n: Session, guide: Id)
    requires n.status == ReviewingGuide && n.batch.Some? && n.job.Some?
    ensures Next(WithSession(s, session, n), ECompleteReview(session, guide, n.revision))
            == WithSession(s, session, n.(status := Ended, reason := Some(GuideKept), batch := None, job := None,
                                          guide := Some(guide), revision := n.revision + 1))
  {
  }

  lemma GuideToTheEnd(s: State, request: Id, user: Id, session: Id, batch: Id, job: Id, draft: Id, guide: Id)
    ensures Run(WithSession(s, session, WithGuideToCome(request, user)),
                [ECreateBatch(session, batch, 3), ECompleteBatch(session, batch, job), EFinishGeneration(session, draft)]
                + [ECompleteReview(session, guide, 6)])
            == WithSession(s, session, Session(request, user, Ended, true, Some(CreateGuide), None, None, Some(draft),
                                               Some(guide), Some(GuideKept), 7))
  {
    hide Run, Next, WithSession;
    var begin, complete := ECreateBatch(session, batch, 3), ECompleteBatch(session, batch, job);
    var generate, review := EFinishGeneration(session, draft), ECompleteReview(session, guide, 6);
    var n := WithGuideToCome(request, user);
    var s0 := WithSession(s, session, n);
    BatchStarts(s, session, n, batch);
    n := n.(batch := Some(batch), revision := 4);
    BatchCompletes(s, session, n, batch, job);
    n := n.(job := Some(job), revision := 5);
    DraftsArrive(s, session, n, draft);
    n := n.(status := ReviewingGuide, draft := Some(draft), revision := 6);
    ReviewEnds(s, session, n, guide);
    ThreeSteps(s0, begin, complete, generate);
    RunJoins(s0, [begin, complete, generate], [review]);
    OneStep(WithSession(s, session, n), review);
  }

  lemma {:induction false} RunJoins(s: State, a: seq<Event>, b: seq<Event>)
    ensures Run(s, a + b) == Run(Run(s, a), b)
    decreases |a|
  {
    hide Next;
    if a == [] {
      assert a + b == b;
    } else {
      RunJoins(Next(s, a[0]), a[1..], b);
      assert (a + b)[1..] == a[1..] + b && (a + b)[0] == a[0];
    }
  }

  /** A waiting request that is called, accepted and resolved with a guide, and whose guide is collected, generated
      and reviewed, is resolved, and its session has ended with that guide; nothing else has changed. */
  lemma HelpEndsWithItsGuide(s: State, request: Id, session: Id, batch: Id, job: Id, draft: Id, guide: Id)
    requires request in s.requests && s.requests[request].status == Pending && s.requests[request].session.None?
    ensures var r := s.requests[request];
            Run(s, [ECall(request, session, r.revision), EAccept(session, true, 1), EResolve(session, true, 2)]
                   + ([ECreateBatch(session, batch, 3), ECompleteBatch(session, batch, job), EFinishGeneration(session, draft)]
                      + [ECompleteReview(session, guide, 6)]))
            == s.(requests := s.requests[request := r.(status := Resolved, session := Some(session), revision := r.revision + 3)],
                  sessions := s.sessions[session := Session(
                    request, r.user, Ended, true, Some(CreateGuide), None, None, Some(draft), Some(guide), Some(GuideKept), 7)])
  {
    var r := s.requests[request];
    var help := [ECall(request, session, r.revision), EAccept(session, true, 1), EResolve(session, true, 2)];
    var rest := [ECreateBatch(session, batch, 3), ECompleteBatch(session, batch, job), EFinishGeneration(session, draft)]
                + [ECompleteReview(session, guide, 6)];
    hide Run, WithGuideToCome;
    RunJoins(s, help, rest);
    CallsAndResolves(s, request, session);
    var s' := s.(requests := s.requests[request := r.(status := Resolved, session := Some(session), revision := r.revision + 3)]);
    GuideToTheEnd(s', request, r.user, session, batch, job, draft, guide);
  }
}
