/** Support requests, their sessions, and the images they refer to, statement by statement.

    Transactions that create a request or clean up images interleave at every statement. Row locks are held to
    the end of a transaction, a statement sees what is committed when it starts, and what a transaction wrote
    becomes visible when it ends. A transaction that locks every row it uses before it decides is one step. */
module SupportFlow {
  import opened Common
  import opened Entities

  datatype SessionStatus = Ringing | Active | GeneratingGuide | ReviewingGuide | GuideSaved | Ended
  {
    predicate CanTransitionTo(next: SessionStatus) {
      match this
      case Ringing => next == Active
      case Active => next == GeneratingGuide || next == Ended
      case GeneratingGuide => next == ReviewingGuide || next == Ended
      case ReviewingGuide => next == Ended
      case GuideSaved => next == Ended
      case Ended => false
    }
  }

  /** `fromRun`: the request was created from a guide run. */
  datatype Request = Request(
    user: Id, screenshot: Id, fromRun: bool, status: RequestStatus, session: Option<Id>, revision: nat)

  datatype Decision = CreateGuide | SkipGuide

  datatype EndReason = GuideSkipped | GuideKept | GuideCancelled | NoMaterials

  predicate CanEnd(status: SessionStatus, reason: EndReason) {
    match status
    case Ringing => false
    case Active => reason == GuideSkipped
    case GeneratingGuide => reason in {GuideCancelled, NoMaterials}
    case ReviewingGuide => reason in {GuideKept, GuideCancelled}
    case GuideSaved => reason == GuideKept
    case Ended => false
  }

  /** `batch`, `job`, `draft` and `guide` are what the session points to on the way to its guide. */
  datatype Session = Session(
    request: Id, user: Id, status: SessionStatus, consented: bool, decision: Option<Decision>, batch: Option<Id>,
    job: Option<Id>, draft: Option<Id>, guide: Option<Id>, reason: Option<EndReason>, revision: nat)
  {
    predicate NoGuide() { decision.None? && batch.None? && job.None? && draft.None? && guide.None? }

    /** The table's CHECK of a row's state; its clauses on instants are left out. */
    predicate RowOk() {
      match status
      case Ringing => !consented && NoGuide() && reason.None?
      case Active => consented && NoGuide() && reason.None?
      case GeneratingGuide => consented && decision == Some(CreateGuide) && draft.None? && guide.None? && reason.None?
      case ReviewingGuide => consented && decision == Some(CreateGuide) && draft.Some? && guide.None? && reason.None?
      case GuideSaved =>
        && consented && decision == Some(CreateGuide) && batch.None? && job.None? && draft.Some? && guide.Some?
        && reason.None?
      case Ended =>
        && consented && batch.None? && job.None?
        && match reason
           case None => false
           case Some(GuideSkipped) => decision == Some(SkipGuide) && draft.None? && guide.None?
           case Some(GuideKept) => decision == Some(CreateGuide) && draft.Some? && guide.Some?
           case Some(_) => decision == Some(CreateGuide) && draft.None? && guide.None?
    }
  }

  function NewSession(request: Id, user: Id): Session {
    Session(request, user, Ringing, false, None, None, None, None, None, None, 1)
  }

  datatype Role = User | Family

  /** How far a transaction that creates a request has got: for a plain request the user row is locked, the
      two duplicate checks are passed, the image row is locked, and no deletion was found reserved; for one
      from a guide run the duplicate check is a single statement and the image row is only read. */
  datatype Stage = UserLocked | NoActive | NoOpen | ImageLocked | ImageClear | FlowClear | ImageRead

  datatype Creator = Creator(user: Id, request: Id, screenshot: Id, fromRun: bool, stage: Stage)

  /** A cleanup transaction: rows its query listed, locked, found without references, found without a task,
      and the tasks it inserted but has not committed. */
  datatype Cleaner = Cleaner(listed: set<Id>, locked: set<Id>, unreferenced: set<Id>, clear: set<Id>, pending: set<Id>)

  /** `images` holds the artifact rows, `uploaded` the IDs of all there ever were, `reserved` the artifacts with
      a committed deletion task. */
  datatype State = State(
    requests: map<Id, Request>, sessions: map<Id, Session>, images: set<Id>, uploaded: set<Id>, reserved: set<Id>,
    creators: map<Id, Creator>, cleaners: map<Id, Cleaner>)

  const EMPTY: State := State(map[], map[], {}, {}, {}, map[], map[])

  // ------------------------------------------------------------------------------ what queries see

  predicate HasActiveRequest(s: State, user: Id) {
    exists r :: r in s.requests && s.requests[r].user == user && s.requests[r].status in {Pending, InSupport}
  }

  predicate HasOpenSession(s: State, user: Id) {
    exists n :: n in s.sessions && s.sessions[n].user == user && s.sessions[n].status != Ended
  }

  predicate Referenced(s: State, image: Id) {
    exists r :: r in s.requests && s.requests[r].screenshot == image
  }

  predicate HoldsImage(c: Creator) { c.stage == ImageLocked || c.stage == ImageClear }

  /** Another transaction holds the image's row lock. */
  predicate LockedByOther(s: State, tx: Id, image: Id) {
    || (exists t :: t in s.creators && t != tx && HoldsImage(s.creators[t]) && s.creators[t].screenshot == image)
    || (exists c :: c in s.cleaners && c != tx && image in s.cleaners[c].locked)
  }

  // ------------------------------------------------------------------------------ create a request

  function LockUser(s: State, tx: Id, user: Id, request: Id, screenshot: Id, fromRun: bool): State {
    if exists t :: t in s.creators && s.creators[t].user == user then s  // waits for the lock
    else s.(creators := s.creators[tx := Creator(user, request, screenshot, fromRun, UserLocked)])
  }

  function Leave(s: State, tx: Id): State { s.(creators := s.creators - {tx}) }

  function Reach(s: State, tx: Id, stage: Stage): State
    requires tx in s.creators
  {
    s.(creators := s.creators[tx := s.creators[tx].(stage := stage)])
  }

  predicate At(s: State, tx: Id, fromRun: bool, stage: Stage) {
    tx in s.creators && s.creators[tx].fromRun == fromRun && s.creators[tx].stage == stage
  }

  function CheckActive(s: State, tx: Id): State {
    if !At(s, tx, false, UserLocked) then s
    else if HasActiveRequest(s, s.creators[tx].user) then Leave(s, tx) else Reach(s, tx, NoActive)
  }

  function CheckOpen(s: State, tx: Id): State {
    if !At(s, tx, false, NoActive) then s
    else if HasOpenSession(s, s.creators[tx].user) then Leave(s, tx) else Reach(s, tx, NoOpen)
  }

  function LockImage(s: State, tx: Id): State {
    if !At(s, tx, false, NoOpen) then s
    else if s.creators[tx].screenshot !in s.images then Leave(s, tx)
    else if LockedByOther(s, tx, s.creators[tx].screenshot) then s
    else Reach(s, tx, ImageLocked)
  }

  function CheckReserved(s: State, tx: Id): State {
    if !At(s, tx, false, ImageLocked) then s
    else if s.creators[tx].screenshot in s.reserved then Leave(s, tx) else Reach(s, tx, ImageClear)
  }

  function Insert(s: State, tx: Id): State
    requires tx in s.creators
  {
    var c := s.creators[tx];
    Leave(s, tx).(requests := s.requests[c.request := Request(c.user, c.screenshot, c.fromRun, Pending, None, 1)])
  }

  function InsertRequest(s: State, tx: Id): State {
    if At(s, tx, false, ImageClear) then Insert(s, tx) else s
  }

  function CheckFlow(s: State, tx: Id): State {
    if !At(s, tx, true, UserLocked) then s
    else if HasActiveRequest(s, s.creators[tx].user) || HasOpenSession(s, s.creators[tx].user) then Leave(s, tx)
    else Reach(s, tx, FlowClear)
  }

  /** The query finds the image only if no deletion is reserved for it, but takes no lock. */
  function ReadImage(s: State, tx: Id): State {
    if !At(s, tx, true, FlowClear) then s
    else if s.creators[tx].screenshot in s.images && s.creators[tx].screenshot !in s.reserved
    then Reach(s, tx, ImageRead)
    else Leave(s, tx)
  }

  /** The transaction is about to insert, and the foreign key neither refuses it nor makes it wait. */
  predicate Inserts(s: State, tx: Id) {
    && At(s, tx, true, ImageRead) && s.creators[tx].screenshot in s.images
    && !LockedByOther(s, tx, s.creators[tx].screenshot)
  }

  /** The foreign key waits for a locked image row and refuses a missing one; it knows nothing of tasks. */
  function InsertFromRun(s: State, tx: Id): State {
    if Inserts(s, tx) then Insert(s, tx)
    else if At(s, tx, true, ImageRead) && s.creators[tx].screenshot !in s.images then Leave(s, tx)
    else s
  }

  // ------------------------------------------------------------------------- requests and sessions

  /** The session belongs to the request and the request to the session, as the guards require. */
  predicate Paired(s: State, session: Id) {
    && session in s.sessions && s.sessions[session].request in s.requests
    && s.requests[s.sessions[session].request].session == Some(session)
  }

  function Call(s: State, request: Id, session: Id, expected: nat): State {
    if request !in s.requests then s else
    var r := s.requests[request];
    if r.revision != expected || r.status != Pending || r.session.Some? then s
    else s.(sessions := s.sessions[session := NewSession(request, r.user)],
            requests := s.requests[request := r.(session := Some(session), revision := r.revision + 1)])
  }

  function Cancel(s: State, request: Id, expected: nat): State {
    if request !in s.requests then s else
    var r := s.requests[request];
    if r.status != Pending || r.session.Some? || r.revision != expected then s
    else s.(requests := s.requests[request := r.(status := Cancelled, revision := r.revision + 1)])
  }

  /** Writes both rows of a pair. */
  function Advance(s: State, session: Id, after: Session, requestAfter: RequestStatus): State
    requires Paired(s, session)
  {
    var n := s.sessions[session];
    var r := s.requests[n.request];
    s.(sessions := s.sessions[session := after.(revision := n.revision + 1)],
       requests := s.requests[n.request := r.(status := requestAfter, revision := r.revision + 1)])
  }

  function Accepted(n: Session): Session { n.(status := Active, consented := true) }

  function Accept(s: State, session: Id, consented: bool, expected: nat): State {
    if !Paired(s, session) || s.sessions[session].revision != expected || s.sessions[session].status != Ringing
       || s.requests[s.sessions[session].request].status != Pending || !consented then s
    else Advance(s, session, Accepted(s.sessions[session]), InSupport)
  }

  function Resolution(n: Session, createGuide: bool): Session {
    if createGuide then n.(status := GeneratingGuide, decision := Some(CreateGuide))
    else n.(status := Ended, decision := Some(SkipGuide), reason := Some(GuideSkipped))
  }

  function Resolve(s: State, session: Id, createGuide: bool, expected: nat): State {
    if !Paired(s, session) || s.sessions[session].revision != expected || s.sessions[session].status != Active
       || s.requests[s.sessions[session].request].status != InSupport then s
    else Advance(s, session, Resolution(s.sessions[session], createGuide), Resolved)
  }

  // ------------------------------------------------------- sessions after their request is resolved
  //
  // The UPDATEs name the row only (one has a status guard as well); what they may be applied to is checked by
  // the services under the row lock. Guards on jobs, batches and drafts are in `GuideJobs` and `GuideReview`.

  function SetSession(s: State, session: Id, after: Session): State
    requires session in s.sessions
  {
    s.(sessions := s.sessions[session := after.(revision := s.sessions[session].revision + 1)])
  }

  predicate CanCreateBatch(n: Session) {
    n.status == GeneratingGuide && n.decision == Some(CreateGuide) && n.batch.None?
  }

  function CreateBatch(s: State, session: Id, batch: Id, expected: nat): State {
    if session !in s.sessions || s.sessions[session].revision != expected || !CanCreateBatch(s.sessions[session]) then s
    else SetSession(s, session, s.sessions[session].(batch := Some(batch)))
  }

  function CompleteBatch(s: State, session: Id, batch: Id, job: Id): State {
    if session !in s.sessions || s.sessions[session].status != GeneratingGuide
       || s.sessions[session].batch != Some(batch) || s.sessions[session].job.Some? then s
    else SetSession(s, session, s.sessions[session].(job := Some(job)))
  }

  /** A worker that still holds the job saves its drafts. */
  function FinishGeneration(s: State, session: Id, draft: Id): State {
    if session !in s.sessions || s.sessions[session].status != GeneratingGuide then s
    else SetSession(s, session, s.sessions[session].(status := ReviewingGuide, draft := Some(draft)))
  }

  function CompleteReview(s: State, session: Id, guide: Id, expected: nat): State {
    if session !in s.sessions || s.sessions[session].revision != expected || s.sessions[session].status != ReviewingGuide
       || s.sessions[session].batch.None? || s.sessions[session].job.None? then s
    else SetSession(s, session, s.sessions[session].(
      status := Ended, reason := Some(GuideKept), batch := None, job := None, guide := Some(guide)))
  }

  predicate CanEndWithoutGuide(n: Session, role: Role, reason: EndReason, jobFailed: bool) {
    match role
    case User => reason == NoMaterials && n.status == GeneratingGuide && n.batch.None? && n.job.None?
    case Family =>
      && reason == GuideCancelled
      && (n.status == ReviewingGuide || (n.status == GeneratingGuide && (n.job.None? || jobFailed)))
  }

  /** `jobFailed`: the session's job, if it has one, is read as FAILED. */
  function EndWithoutGuide(s: State, session: Id, role: Role, reason: EndReason, jobFailed: bool, expected: nat): State {
    if session !in s.sessions || s.sessions[session].revision != expected
       || !CanEndWithoutGuide(s.sessions[session], role, reason, jobFailed) then s
    else SetSession(s, session, s.sessions[session].(
      status := Ended, reason := Some(reason), batch := None, job := None, draft := None, guide := None))
  }

  /** Ends a call that went on after its guide was saved (no step leads into that status any more). */
  function EndSaved(s: State, session: Id, expected: nat): State {
    if session !in s.sessions || s.sessions[session].revision != expected || s.sessions[session].status != GuideSaved
       || s.sessions[session].guide.None? || s.sessions[session].draft.None? then s
    else SetSession(s, session, s.sessions[session].(status := Ended, reason := Some(GuideKept)))
  }

  // ----------------------------------------------------------------------------- image cleanup

  function Upload(s: State, image: Id): State { s.(images := s.images + {image}, uploaded := s.uploaded + {image}) }

  /** The listing query: stale images without a referring request or a task when it starts. Which of them are
      stale, and how many fit the batch, is left open (`stale`). */
  function BeginCleanup(s: State, tx: Id, stale: set<Id>): State {
    s.(cleaners := s.cleaners[tx := Cleaner(
      set i | i in stale && i in s.images && !Referenced(s, i) && i !in s.reserved, {}, {}, {}, {})])
  }

  /** FOR UPDATE SKIP LOCKED takes a listed row unless it is locked or gone. */
  function LockListed(s: State, tx: Id, image: Id): State {
    if tx !in s.cleaners || image !in s.cleaners[tx].listed || image !in s.images || LockedByOther(s, tx, image) then s
    else s.(cleaners := s.cleaners[tx := s.cleaners[tx].(locked := s.cleaners[tx].locked + {image})])
  }

  /** `other`: a guide material or guide step refers to the image. */
  function CheckReferences(s: State, tx: Id, image: Id, other: bool): State {
    if tx !in s.cleaners || image !in s.cleaners[tx].locked || other || Referenced(s, image) then s
    else s.(cleaners := s.cleaners[tx := s.cleaners[tx].(unreferenced := s.cleaners[tx].unreferenced + {image})])
  }

  function CheckTask(s: State, tx: Id, image: Id): State {
    if tx !in s.cleaners || image !in s.cleaners[tx].unreferenced || image in s.reserved then s
    else s.(cleaners := s.cleaners[tx := s.cleaners[tx].(clear := s.cleaners[tx].clear + {image})])
  }

  function InsertTask(s: State, tx: Id, image: Id): State {
    if tx !in s.cleaners || image !in s.cleaners[tx].clear then s
    else s.(cleaners := s.cleaners[tx := s.cleaners[tx].(pending := s.cleaners[tx].pending + {image})])
  }

  function CommitCleanup(s: State, tx: Id): State {
    if tx !in s.cleaners then s
    else s.(reserved := s.reserved + s.cleaners[tx].pending, cleaners := s.cleaners - {tx})
  }

  function AbortCleanup(s: State, tx: Id): State { s.(cleaners := s.cleaners - {tx}) }

  /** A deletion worker's last transaction: the foreign key refuses to delete a referenced row. */
  function DeleteImage(s: State, image: Id): State {
    if image !in s.reserved || Referenced(s, image) || LockedByOther(s, "", image) then s
    else s.(images := s.images - {image}, reserved := s.reserved - {image})
  }

  // -------------------------------------------------------------------------------------- runs

  datatype Event =
    | ELockUser(tx: Id, user: Id, request: Id, screenshot: Id, fromRun: bool)
    | ECheckActive(tx: Id) | ECheckOpen(tx: Id) | ELockImage(tx: Id) | ECheckReserved(tx: Id) | EInsertRequest(tx: Id)
    | ECheckFlow(tx: Id) | EReadImage(tx: Id) | EInsertFromRun(tx: Id) | ELeave(tx: Id)
    | ECall(request: Id, session: Id, expected: nat) | ECancel(request: Id, expected: nat)
    | EAccept(session: Id, consented: bool, expected: nat) | EResolve(session: Id, createGuide: bool, expected: nat)
    | ECreateBatch(session: Id, batch: Id, expected: nat) | ECompleteBatch(session: Id, batch: Id, job: Id)
    | EFinishGeneration(session: Id, draft: Id) | ECompleteReview(session: Id, guide: Id, expected: nat)
    | EEndWithoutGuide(session: Id, role: Role, reason: EndReason, jobFailed: bool, expected: nat)
    | EEndSaved(session: Id, expected: nat)
    | EUpload(image: Id) | EBeginCleanup(tx: Id, stale: set<Id>) | ELockListed(tx: Id, image: Id)
    | ECheckReferences(tx: Id, image: Id, other: bool) | ECheckTask(tx: Id, image: Id) | EInsertTask(tx: Id, image: Id)
    | ECommitCleanup(tx: Id) | EAbortCleanup(tx: Id) | EDeleteImage(image: Id)
  {
    /** A statement of a transaction that creates a request. */
    predicate OfCreator() {
      || ELockUser? || ECheckActive? || ECheckOpen? || ELockImage? || ECheckReserved? || EInsertRequest? || ECheckFlow?
      || EReadImage? || EInsertFromRun? || ELeave?
    }

    /** A transaction on a request, or on it and its session. */
    predicate OfPair() { ECall? || ECancel? || EAccept? || EResolve? }

    /** A transaction on the session of a resolved request. */
    predicate OfSession() {
      ECreateBatch? || ECompleteBatch? || EFinishGeneration? || ECompleteReview? || EEndWithoutGuide? || EEndSaved?
    }

    predicate OfImages() { !OfCreator() && !OfPair() && !OfSession() }
  }

  function Next(s: State, e: Event): State {
    match e
    case ELockUser(tx, user, request, screenshot, fromRun) => LockUser(s, tx, user, request, screenshot, fromRun)
    case ECheckActive(tx) => CheckActive(s, tx)
    case ECheckOpen(tx) => CheckOpen(s, tx)
    case ELockImage(tx) => LockImage(s, tx)
    case ECheckReserved(tx) => CheckReserved(s, tx)
    case EInsertRequest(tx) => InsertRequest(s, tx)
    case ECheckFlow(tx) => CheckFlow(s, tx)
    case EReadImage(tx) => ReadImage(s, tx)
    case EInsertFromRun(tx) => InsertFromRun(s, tx)
    case ELeave(tx) => Leave(s, tx)
    case ECall(request, session, expected) => Call(s, request, session, expected)
    case ECancel(request, expected) => Cancel(s, request, expected)
    case EAccept(session, consented, expected) => Accept(s, session, consented, expected)
    case EResolve(session, createGuide, expected) => Resolve(s, session, createGuide, expected)
    case ECreateBatch(session, batch, expected) => CreateBatch(s, session, batch, expected)
    case ECompleteBatch(session, batch, job) => CompleteBatch(s, session, batch, job)
    case EFinishGeneration(session, draft) => FinishGeneration(s, session, draft)
    case ECompleteReview(session, guide, expected) => CompleteReview(s, session, guide, expected)
    case EEndWithoutGuide(session, role, reason, jobFailed, expected) =>
      EndWithoutGuide(s, session, role, reason, jobFailed, expected)
    case EEndSaved(session, expected) => EndSaved(s, session, expected)
    case EUpload(image) => Upload(s, image)
    case EBeginCleanup(tx, stale) => BeginCleanup(s, tx, stale)
    case ELockListed(tx, image) => LockListed(s, tx, image)
    case ECheckReferences(tx, image, other) => CheckReferences(s, tx, image, other)
    case ECheckTask(tx, image) => CheckTask(s, tx, image)
    case EInsertTask(tx, image) => InsertTask(s, tx, image)
    case ECommitCleanup(tx) => CommitCleanup(s, tx)
    case EAbortCleanup(tx) => AbortCleanup(s, tx)
    case EDeleteImage(image) => DeleteImage(s, image)
  }

  /** Generated IDs and transaction names are new. */
  predicate Fair(s: State, e: Event) {
    match e
    case ELockUser(tx, _, request, _, _) =>
      && tx != "" && tx !in s.creators && tx !in s.cleaners && request !in s.requests
      && forall t :: t in s.creators ==> s.creators[t].request != request
    case ECall(_, session, _) => session !in s.sessions
    case EUpload(image) => image !in s.uploaded
    case EBeginCleanup(tx, _) => tx != "" && tx !in s.creators && tx !in s.cleaners
    case _ => true
  }

  function Run(s: State, run: seq<Event>): State
    decreases |run|
  {
    if run == [] then s else Run(Next(s, run[0]), run[1..])
  }

  predicate FairRun(s: State, run: seq<Event>)
    decreases |run|
  {
    run == [] || (Fair(s, run[0]) && FairRun(Next(s, run[0]), run[1..]))
  }

  // --------------------------------------------------------------------------------- invariant

  /** The request is not over: it waits, is being helped, or its session has not ended. */
  predicate Live(requests: map<Id, Request>, sessions: map<Id, Session>, r: Id) {
    && r in requests
    && (|| requests[r].status in {Pending, InSupport}
        || (requests[r].session.Some? && requests[r].session.value in sessions
            && sessions[requests[r].session.value].status != Ended))
  }

  /** Which request status goes with which session status. */
  predicate InStep(r: Request, sessions: map<Id, Session>) {
    match r.status
    case Pending => r.session.Some? ==> r.session.value in sessions && sessions[r.session.value].status == Ringing
    case InSupport => r.session.Some? && r.session.value in sessions && sessions[r.session.value].status == Active
    case Resolved => r.session.Some? && r.session.value in sessions
                     && sessions[r.session.value].status !in {Ringing, Active}
    case Cancelled => r.session.None?
  }

  ghost predicate PairsOk(requests: map<Id, Request>, sessions: map<Id, Session>) {
    && (forall r :: r in requests ==> InStep(requests[r], sessions))
    && (forall r :: r in requests && requests[r].session.Some? ==>
          requests[r].session.value in sessions && sessions[requests[r].session.value].request == r)
    && (forall n :: n in sessions ==>
          && sessions[n].request in requests && requests[sessions[n].request].session == Some(n)
          && requests[sessions[n].request].user == sessions[n].user)
  }

  ghost predicate OneLive(requests: map<Id, Request>, sessions: map<Id, Session>) {
    forall p, q :: Live(requests, sessions, p) && Live(requests, sessions, q) && requests[p].user == requests[q].user
      ==> p == q
  }

  predicate StageOk(c: Creator, requests: map<Id, Request>, sessions: map<Id, Session>) {
    && c.request !in requests
    && (c.stage == NoActive ==>
          forall r :: r in requests && requests[r].user == c.user ==> requests[r].status !in {Pending, InSupport})
    && (c.stage !in {UserLocked, NoActive} ==>
          forall r :: r in requests && requests[r].user == c.user ==> !Live(requests, sessions, r))
  }

  ghost predicate CreatorsOk(creators: map<Id, Creator>, requests: map<Id, Request>, sessions: map<Id, Session>) {
    && (forall t :: t in creators ==> StageOk(creators[t], requests, sessions))
    && (forall t, u :: t in creators && u in creators && creators[t].user == creators[u].user ==> t == u)
    && (forall t, u :: t in creators && u in creators && creators[t].request == creators[u].request ==> t == u)
  }

  predicate ImageOk(c: Creator, images: set<Id>, reserved: set<Id>) {
    && (HoldsImage(c) ==> c.screenshot in images && !c.fromRun)
    && (c.stage == ImageClear ==> c.screenshot !in reserved)
  }

  predicate CleanerOk(c: Cleaner, requests: map<Id, Request>, images: set<Id>) {
    && c.pending <= c.clear <= c.unreferenced <= c.locked <= images
    && forall i :: i in c.unreferenced ==> forall r :: r in requests ==> requests[r].screenshot != i
  }

  ghost predicate LocksOk(s: State) {
    && (forall t :: t in s.creators ==> ImageOk(s.creators[t], s.images, s.reserved))
    && (forall c :: c in s.cleaners ==> CleanerOk(s.cleaners[c], s.requests, s.images))
    && (forall t, c :: t in s.creators && c in s.cleaners && HoldsImage(s.creators[t]) ==>
          s.creators[t].screenshot !in s.cleaners[c].locked)
    && (forall c, d :: c in s.cleaners && d in s.cleaners && c != d ==> s.cleaners[c].locked !! s.cleaners[d].locked)
    && "" !in s.creators && "" !in s.cleaners && s.creators.Keys !! s.cleaners.Keys
    && s.reserved <= s.images <= s.uploaded
  }

  /** Every referenced image has its row, and a plain request's image has no deletion reserved. */
  ghost predicate ReferencesOk(requests: map<Id, Request>, images: set<Id>, reserved: set<Id>) {
    forall r :: r in requests ==>
      requests[r].screenshot in images && (!requests[r].fromRun ==> requests[r].screenshot !in reserved)
  }

  ghost predicate RowsOk(sessions: map<Id, Session>) {
    forall n :: n in sessions ==> sessions[n].RowOk()
  }

  ghost predicate Inv(s: State) {
    && PairsOk(s.requests, s.sessions) && OneLive(s.requests, s.sessions) && RowsOk(s.sessions)
    && CreatorsOk(s.creators, s.requests, s.sessions)
    && LocksOk(s) && ReferencesOk(s.requests, s.images, s.reserved)
  }

  lemma EmptyInv()
    ensures Inv(EMPTY)
  {
  }

  // ---------------------------------------------------------------------------------- creators

  lemma NewCreator(s: State, tx: Id, c: Creator)
    requires CreatorsOk(s.creators, s.requests, s.sessions) && tx !in s.creators
    requires c.stage == UserLocked && c.request !in s.requests
    requires forall t :: t in s.creators ==> s.creators[t].user != c.user && s.creators[t].request != c.request
    ensures CreatorsOk(s.creators[tx := c], s.requests, s.sessions)
  {
    hide Live;
  }

  lemma NewCreatorLocks(s: State, tx: Id, c: Creator)
    requires LocksOk(s) && tx != "" && tx !in s.creators && tx !in s.cleaners && c.stage == UserLocked
    ensures LocksOk(s.(creators := s.creators[tx := c]))
  {
  }

  lemma LockUserKeeps(s: State, tx: Id, user: Id, request: Id, screenshot: Id, fromRun: bool)
    requires Inv(s) && Fair(s, ELockUser(tx, user, request, screenshot, fromRun))
    ensures Inv(LockUser(s, tx, user, request, screenshot, fromRun))
  {
    if forall t :: t in s.creators ==> s.creators[t].user != user {
      var c := Creator(user, request, screenshot, fromRun, UserLocked);
      NewCreator(s, tx, c);
      NewCreatorLocks(s, tx, c);
      hide CreatorsOk, LocksOk, PairsOk, OneLive, ReferencesOk;
    }
  }

  lemma LeaveKeeps(s: State, tx: Id)
    requires Inv(s)
    ensures Inv(Leave(s, tx))
  {
  }

  lemma ReachKeeps(s: State, tx: Id, stage: Stage)
    requires Inv(s) && tx in s.creators
    requires var c := s.creators[tx].(stage := stage);
             && StageOk(c, s.requests, s.sessions) && ImageOk(c, s.images, s.reserved)
             && (HoldsImage(c) && !HoldsImage(s.creators[tx]) ==> !LockedByOther(s, tx, c.screenshot))
    ensures Inv(Reach(s, tx, stage))
  {
  }

  lemma CheckActiveKeeps(s: State, tx: Id)
    requires Inv(s)
    ensures Inv(CheckActive(s, tx))
  {
    if At(s, tx, false, UserLocked) {
      if HasActiveRequest(s, s.creators[tx].user) {
        LeaveKeeps(s, tx);
      } else {
        ReachKeeps(s, tx, NoActive);
      }
    }
  }

  /** Nothing pending or in support, and then no open session: the user has no live request. The order matters:
      between the two statements a request can only move from the first check's view into the second's. */
  lemma NoOpenIsNotLive(s: State, user: Id)
    requires PairsOk(s.requests, s.sessions)
    requires forall r :: r in s.requests && s.requests[r].user == user ==> s.requests[r].status !in {Pending, InSupport}
    requires !HasOpenSession(s, user)
    ensures forall r :: r in s.requests && s.requests[r].user == user ==> !Live(s.requests, s.sessions, r)
  {
    forall r | r in s.requests && s.requests[r].user == user && s.requests[r].session.Some?
      ensures s.sessions[s.requests[r].session.value].status == Ended
    {
      assert s.sessions[s.requests[r].session.value].user == user;
    }
  }

  lemma CheckOpenKeeps(s: State, tx: Id)
    requires Inv(s)
    ensures Inv(CheckOpen(s, tx))
  {
    if At(s, tx, false, NoActive) {
      if HasOpenSession(s, s.creators[tx].user) {
        LeaveKeeps(s, tx);
      } else {
        NoOpenIsNotLive(s, s.creators[tx].user);
        ReachKeeps(s, tx, NoOpen);
      }
    }
  }

  lemma LockImageKeeps(s: State, tx: Id)
    requires Inv(s)
    ensures Inv(LockImage(s, tx))
  {
    if At(s, tx, false, NoOpen) {
      if s.creators[tx].screenshot !in s.images {
        LeaveKeeps(s, tx);
      } else if !LockedByOther(s, tx, s.creators[tx].screenshot) {
        ReachKeeps(s, tx, ImageLocked);
      }
    }
  }

  lemma CheckReservedKeeps(s: State, tx: Id)
    requires Inv(s)
    ensures Inv(CheckReserved(s, tx))
  {
    if At(s, tx, false, ImageLocked) {
      if s.creators[tx].screenshot in s.reserved {
        LeaveKeeps(s, tx);
      } else {
        ReachKeeps(s, tx, ImageClear);
      }
    }
  }

  lemma CheckFlowKeeps(s: State, tx: Id)
    requires Inv(s)
    ensures Inv(CheckFlow(s, tx))
  {
    if At(s, tx, true, UserLocked) {
      var user := s.creators[tx].user;
      if HasActiveRequest(s, user) || HasOpenSession(s, user) {
        LeaveKeeps(s, tx);
      } else {
        NoOpenIsNotLive(s, user);
        ReachKeeps(s, tx, FlowClear);
      }
    }
  }

  lemma ReadImageKeeps(s: State, tx: Id)
    requires Inv(s)
    ensures Inv(ReadImage(s, tx))
  {
    if At(s, tx, true, FlowClear) {
      if s.creators[tx].screenshot in s.images {
        ReachKeeps(s, tx, ImageRead);
      } else {
        LeaveKeeps(s, tx);
      }
    }
  }

  lemma InsertPairs(s: State, c: Creator)
    requires PairsOk(s.requests, s.sessions) && OneLive(s.requests, s.sessions) && c.request !in s.requests
    requires forall r :: r in s.requests && s.requests[r].user == c.user ==> !Live(s.requests, s.sessions, r)
    ensures var requests := s.requests[c.request := Request(c.user, c.screenshot, c.fromRun, Pending, None, 1)];
            PairsOk(requests, s.sessions) && OneLive(requests, s.sessions)
  {
  }

  lemma InsertCreators(s: State, tx: Id)
    requires CreatorsOk(s.creators, s.requests, s.sessions) && tx in s.creators
    ensures var c := s.creators[tx];
            var requests := s.requests[c.request := Request(c.user, c.screenshot, c.fromRun, Pending, None, 1)];
            CreatorsOk(s.creators - {tx}, requests, s.sessions)
  {
  }

  lemma InsertKeeps(s: State, tx: Id)
    requires Inv(s) && tx in s.creators && s.creators[tx].stage !in {UserLocked, NoActive}
    requires var c := s.creators[tx];
             && c.screenshot in s.images && (!c.fromRun ==> c.screenshot !in s.reserved)
             && forall d :: d in s.cleaners ==> c.screenshot !in s.cleaners[d].locked
    ensures Inv(Insert(s, tx))
  {
    assert StageOk(s.creators[tx], s.requests, s.sessions);
    InsertPairs(s, s.creators[tx]);
    InsertCreators(s, tx);
  }

  lemma InsertRequestKeeps(s: State, tx: Id)
    requires Inv(s)
    ensures Inv(InsertRequest(s, tx))
  {
    if At(s, tx, false, ImageClear) {
      assert ImageOk(s.creators[tx], s.images, s.reserved);
      InsertKeeps(s, tx);
    }
  }

  lemma InsertFromRunKeeps(s: State, tx: Id)
    requires Inv(s)
    ensures Inv(InsertFromRun(s, tx))
  {
    if At(s, tx, true, ImageRead) {
      if s.creators[tx].screenshot !in s.images {
        LeaveKeeps(s, tx);
      } else if !LockedByOther(s, tx, s.creators[tx].screenshot) {
        assert tx !in s.cleaners;
        hide Inv;
        InsertKeeps(s, tx);
      }
    }
  }

  // -------------------------------------------------------------------------- requests, sessions

  /** Requests keep their identity and none comes (back) to life. */
  ghost predicate Milder(s: State, s': State) {
    && s' == s.(requests := s'.requests, sessions := s'.sessions)
    && s'.requests.Keys == s.requests.Keys
    && (forall r :: r in s.requests ==>
          && s'.requests[r].user == s.requests[r].user && s'.requests[r].screenshot == s.requests[r].screenshot
          && s'.requests[r].fromRun == s.requests[r].fromRun
          && (s'.requests[r].status in {Pending, InSupport} ==> s.requests[r].status in {Pending, InSupport})
          && (Live(s'.requests, s'.sessions, r) ==> Live(s.requests, s.sessions, r)))
  }

  lemma MilderOneLive(s: State, s': State)
    requires Milder(s, s') && OneLive(s.requests, s.sessions)
    ensures OneLive(s'.requests, s'.sessions)
  {
    forall p, q | Live(s'.requests, s'.sessions, p) && Live(s'.requests, s'.sessions, q)
                  && s'.requests[p].user == s'.requests[q].user
      ensures p == q
    {
      assert Live(s.requests, s.sessions, p) && Live(s.requests, s.sessions, q);
    }
  }

  lemma MilderCreators(s: State, s': State)
    requires Milder(s, s') && CreatorsOk(s.creators, s.requests, s.sessions)
    ensures CreatorsOk(s'.creators, s'.requests, s'.sessions)
  {
    hide Live;
  }

  lemma MilderLocks(s: State, s': State)
    requires Milder(s, s') && LocksOk(s) && ReferencesOk(s.requests, s.images, s.reserved)
    ensures LocksOk(s') && ReferencesOk(s'.requests, s'.images, s'.reserved)
  {
    hide Live;
  }

  lemma MilderKeeps(s: State, s': State)
    requires Inv(s) && Milder(s, s') && PairsOk(s'.requests, s'.sessions) && RowsOk(s'.sessions)
    ensures Inv(s')
  {
    hide Milder, PairsOk, OneLive, RowsOk;
    MilderOneLive(s, s');
    MilderCreators(s, s');
    MilderLocks(s, s');
  }

  /** One request and its session change together. */
  lemma PairTouched(requests: map<Id, Request>, sessions: map<Id, Session>, r: Id, r': Request, n: Id, n': Session)
    requires PairsOk(requests, sessions) && r in requests && r'.session == Some(n) && n'.request == r
    requires n in sessions ==> sessions[n].request == r
    requires n !in sessions ==> requests[r].session.None?
    requires r'.user == n'.user == requests[r].user && InStep(r', sessions[n := n'])
    ensures PairsOk(requests[r := r'], sessions[n := n'])
  {
  }

  /** What the change must respect so that no request comes back to life. */
  lemma PairMilder(s: State, r: Id, r': Request, n: Id, n': Session)
    requires PairsOk(s.requests, s.sessions) && r in s.requests
    requires n in s.sessions ==> s.sessions[n].request == r
    requires r'.user == s.requests[r].user && r'.screenshot == s.requests[r].screenshot
    requires r'.fromRun == s.requests[r].fromRun
    requires r'.status in {Pending, InSupport} ==> s.requests[r].status in {Pending, InSupport}
    requires || Live(s.requests, s.sessions, r)
             || (r'.status !in {Pending, InSupport} && n'.status == Ended && r'.session == Some(n))
    ensures Milder(s, s.(requests := s.requests[r := r'], sessions := s.sessions[n := n']))
  {
  }

  lemma CallPairs(s: State, request: Id, session: Id, expected: nat)
    requires PairsOk(s.requests, s.sessions) && RowsOk(s.sessions) && session !in s.sessions
    requires Call(s, request, session, expected) != s
    ensures var s' := Call(s, request, session, expected);
            PairsOk(s'.requests, s'.sessions) && RowsOk(s'.sessions) && Milder(s, s')
  {
    var s' := Call(s, request, session, expected);
    PairTouched(s.requests, s.sessions, request, s'.requests[request], session, s'.sessions[session]);
    PairMilder(s, request, s'.requests[request], session, s'.sessions[session]);
    hide PairsOk, Milder;
  }

  lemma CallKeeps(s: State, request: Id, session: Id, expected: nat)
    requires Inv(s) && session !in s.sessions
    ensures Inv(Call(s, request, session, expected))
  {
    if Call(s, request, session, expected) != s {
      CallPairs(s, request, session, expected);
      hide Inv, PairsOk, RowsOk, Milder, Call;
      MilderKeeps(s, Call(s, request, session, expected));
    }
  }

  lemma CancelPairs(requests: map<Id, Request>, sessions: map<Id, Session>, r: Id, r': Request)
    requires PairsOk(requests, sessions) && r in requests && requests[r].session.None?
    requires r'.session.None? && r'.status == Cancelled
    ensures PairsOk(requests[r := r'], sessions)
  {
  }

  lemma CancelMilder(s: State, request: Id, expected: nat)
    ensures Milder(s, Cancel(s, request, expected))
  {
  }

  lemma CancelKeeps(s: State, request: Id, expected: nat)
    requires Inv(s)
    ensures Inv(Cancel(s, request, expected))
  {
    var s' := Cancel(s, request, expected);
    CancelMilder(s, request, expected);
    if s' != s {
      CancelPairs(s.requests, s.sessions, request, s'.requests[request]);
    }
    hide Milder, PairsOk, OneLive, CreatorsOk, LocksOk, ReferencesOk;
    MilderKeeps(s, s');
  }

  lemma AdvancePairs(s: State, session: Id, after: Session, requestAfter: RequestStatus)
    requires PairsOk(s.requests, s.sessions) && RowsOk(s.sessions) && Paired(s, session)
    requires s.requests[s.sessions[session].request].status in {Pending, InSupport}
    requires after.request == s.sessions[session].request && after.user == s.sessions[session].user && after.RowOk()
    requires || (after.status == Active && requestAfter == InSupport)
             || (after.status !in {Ringing, Active} && requestAfter == Resolved)
    ensures var s' := Advance(s, session, after, requestAfter);
            PairsOk(s'.requests, s'.sessions) && RowsOk(s'.sessions) && Milder(s, s')
  {
    var s' := Advance(s, session, after, requestAfter);
    var r := s.sessions[session].request;
    PairTouched(s.requests, s.sessions, r, s'.requests[r], session, s'.sessions[session]);
    PairMilder(s, r, s'.requests[r], session, s'.sessions[session]);
    hide PairsOk, Milder;
  }

  lemma AdvanceKeeps(s: State, session: Id, after: Session, requestAfter: RequestStatus)
    requires Inv(s) && Paired(s, session) && s.requests[s.sessions[session].request].status in {Pending, InSupport}
    requires after.request == s.sessions[session].request && after.user == s.sessions[session].user && after.RowOk()
    requires || (after.status == Active && requestAfter == InSupport)
             || (after.status !in {Ringing, Active} && requestAfter == Resolved)
    ensures Inv(Advance(s, session, after, requestAfter))
  {
    AdvancePairs(s, session, after, requestAfter);
    hide Inv, PairsOk, RowsOk, Milder, Advance;
    MilderKeeps(s, Advance(s, session, after, requestAfter));
  }

  lemma AcceptKeeps(s: State, session: Id, consented: bool, expected: nat)
    requires Inv(s)
    ensures Inv(Accept(s, session, consented, expected))
  {
    if Accept(s, session, consented, expected) != s {
      assert s.sessions[session].RowOk();
      hide Inv, Advance;
      AdvanceKeeps(s, session, Accepted(s.sessions[session]), InSupport);
    }
  }

  lemma ResolveKeeps(s: State, session: Id, createGuide: bool, expected: nat)
    requires Inv(s)
    ensures Inv(Resolve(s, session, createGuide, expected))
  {
    if Resolve(s, session, createGuide, expected) != s {
      assert s.sessions[session].RowOk();
      hide Inv, Advance;
      AdvanceKeeps(s, session, Resolution(s.sessions[session], createGuide), Resolved);
    }
  }

  lemma SetSessionPairs(s: State, session: Id, after: Session)
    requires PairsOk(s.requests, s.sessions) && session in s.sessions
    requires after.request == s.sessions[session].request && after.user == s.sessions[session].user
    requires s.sessions[session].status !in {Ringing, Active, Ended} && after.status !in {Ringing, Active}
    ensures var s' := SetSession(s, session, after); PairsOk(s'.requests, s'.sessions) && Milder(s, s')
  {
    var s' := SetSession(s, session, after);
    var r := s.sessions[session].request;
    assert s.requests[r].session == Some(session);
    PairTouched(s.requests, s.sessions, r, s.requests[r], session, s'.sessions[session]);
    PairMilder(s, r, s.requests[r], session, s'.sessions[session]);
    assert s.requests[r := s.requests[r]] == s.requests;
  }

  lemma SetSessionKeeps(s: State, session: Id, after: Session)
    requires Inv(s) && session in s.sessions && after.RowOk()
    requires after.request == s.sessions[session].request && after.user == s.sessions[session].user
    requires s.sessions[session].status !in {Ringing, Active, Ended} && after.status !in {Ringing, Active}
    ensures Inv(SetSession(s, session, after))
  {
    SetSessionPairs(s, session, after);
    assert RowsOk(SetSession(s, session, after).sessions);
    hide Inv, PairsOk, Milder, SetSession, RowsOk;
    MilderKeeps(s, SetSession(s, session, after));
  }

  /** Each of these steps writes one row, of a session that is not ended, and the row passes its CHECK. */
  lemma SessionStepRow(s: State, e: Event)
    requires RowsOk(s.sessions) && e.OfSession() && Next(s, e) != s
    ensures e.session in s.sessions && e.session in Next(s, e).sessions
    ensures var before, after := s.sessions[e.session], Next(s, e).sessions[e.session];
            && Next(s, e) == SetSession(s, e.session, after) && after.RowOk()
            && after.request == before.request && after.user == before.user
            && before.status !in {Ringing, Active, Ended} && after.status !in {Ringing, Active}
  {
    assert s.sessions[e.session].RowOk();
  }

  lemma SessionStepKeeps(s: State, e: Event)
    requires Inv(s) && e.OfSession()
    ensures Inv(Next(s, e))
  {
    if Next(s, e) != s {
      SessionStepRow(s, e);
      hide Inv, SetSession, Next;
      SetSessionKeeps(s, e.session, Next(s, e).sessions[e.session]);
    }
  }

  // ------------------------------------------------------------------------------------ images

  lemma UploadKeeps(s: State, image: Id)
    requires Inv(s) && image !in s.uploaded
    ensures Inv(Upload(s, image))
  {
  }

  lemma BeginCleanupKeeps(s: State, tx: Id, stale: set<Id>)
    requires Inv(s) && tx != "" && tx !in s.creators && tx !in s.cleaners
    ensures Inv(BeginCleanup(s, tx, stale))
  {
  }

  lemma LockListedKeeps(s: State, tx: Id, image: Id)
    requires Inv(s)
    ensures Inv(LockListed(s, tx, image))
  {
    hide PairsOk, OneLive, CreatorsOk, ReferencesOk;
  }

  lemma CheckReferencesKeeps(s: State, tx: Id, image: Id, other: bool)
    requires Inv(s)
    ensures Inv(CheckReferences(s, tx, image, other))
  {
  }

  lemma CheckTaskKeeps(s: State, tx: Id, image: Id)
    requires Inv(s)
    ensures Inv(CheckTask(s, tx, image))
  {
  }

  lemma InsertTaskKeeps(s: State, tx: Id, image: Id)
    requires Inv(s)
    ensures Inv(InsertTask(s, tx, image))
  {
  }

  lemma CommitCleanupKeeps(s: State, tx: Id)
    requires Inv(s)
    ensures Inv(CommitCleanup(s, tx))
  {
  }

  lemma AbortCleanupKeeps(s: State, tx: Id)
    requires Inv(s)
    ensures Inv(AbortCleanup(s, tx))
  {
  }

  lemma DeleteImageKeeps(s: State, image: Id)
    requires Inv(s)
    ensures Inv(DeleteImage(s, image))
  {
    hide PairsOk, OneLive, CreatorsOk;
  }
}
