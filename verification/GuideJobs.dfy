/** Guide generation jobs: claimed, recovered, failed, retried and completed by workers that a restart may
    overtake. A job row's revision fences them. */
module GuideJobs {
  import opened Common
  import opened Guides
  import Entities

  const MAX_ATTEMPTS := 3

  datatype JobStatus = Queued | Running | Succeeded | Failed

  datatype ErrorCode =
    Timeout | Unavailable | Refusal | IncompleteResponse | InvalidOutput | InputUnavailable | WorkerRestarted

  datatype Job = Job(
    session: Id, status: JobStatus, attempt: int, revision: int, draft: Option<Id>, error: Option<ErrorCode>,
    createdAt: Time, startedAt: Option<Time>, finishedAt: Option<Time>, updatedAt: Time)
  {
    /** The table's CHECK constraints. */
    predicate RowOk() {
      && createdAt <= updatedAt
      && (finishedAt.Some? && startedAt.Some? ==> startedAt.value <= finishedAt.value)
      && match status
         case Queued => 0 <= attempt <= 2 && startedAt.None? && finishedAt.None? && error.None? && draft.None?
         case Running => 1 <= attempt <= 3 && startedAt.Some? && finishedAt.None? && error.None? && draft.None?
         case Succeeded => 1 <= attempt <= 3 && startedAt.Some? && finishedAt.Some? && error.None? && draft.Some?
         case Failed => 1 <= attempt <= 3 && startedAt.Some? && finishedAt.Some? && error.Some? && draft.None?
    }
  }

  /** The states a session with a guide decision goes through. */
  datatype SessionStatus = GeneratingGuide | ReviewingGuide | Ended

  datatype Session = Session(
    status: SessionStatus, job: Option<Id>, draft: Option<Id>, createdAt: Time, startedAt: Time)
  {
    /** The table's CHECKs on instants let the row be updated, or ended, at this time. */
    predicate MayUpdate(now: Time) { createdAt <= Micro(now) }

    predicate MayEnd(now: Time) { createdAt <= Micro(now) && startedAt <= Micro(now) }
  }

  datatype DraftStatus = Editing | Saved

  datatype Draft = Draft(
    session: Id, position: int, title: string, steps: seq<GuideStep>, status: DraftStatus, createdAt: Time, revision: int)

  /** A worker remembers the job as its claim returned it. */
  datatype Worker = Worker(job: Id, revision: int)

  /** `claims` counts the claims of each job ever created; `successes` lists the jobs whose drafts were
      created, with the drafts in the order they were generated. */
  datatype State = State(
    jobs: map<Id, Job>, sessions: map<Id, Session>, drafts: map<Id, Draft>, workers: map<Id, Worker>,
    claims: map<Id, nat>, successes: seq<(Id, seq<Id>)>)

  const EMPTY: State := State(map[], map[], map[], map[], map[], [])

  // ------------------------------------------------------------------------------------- steps
  //
  // An UPDATE whose new row fails a CHECK (the clock has gone back behind a stored instant) aborts its transaction.

  /** A resolved session that is to get a guide. */
  function OpenSession(s: State, session: Id, createdAt: Time, startedAt: Time): State {
    if session in s.sessions then s
    else s.(sessions := s.sessions[session := Session(GeneratingGuide, None, None, createdAt, startedAt)])
  }

  function NewJob(session: Id, now: Time): Job {
    Job(session, Queued, 0, 1, None, None, Micro(now), None, None, Micro(now))
  }

  function CompleteBatch(s: State, session: Id, job: Id, now: Time): State {
    if session !in s.sessions || s.sessions[session].status != GeneratingGuide || s.sessions[session].job.Some?
       || !s.sessions[session].MayUpdate(now) then s
    else s.(jobs := s.jobs[job := NewJob(session, now)],
            sessions := s.sessions[session := s.sessions[session].(job := Some(job))],
            claims := s.claims[job := 0])
  }

  /** The claim looks at the status only, not at the attempts left. */
  function Claimed(j: Job, now: Time): Job {
    j.(status := Running, attempt := j.attempt + 1, revision := j.revision + 1, startedAt := Some(Micro(now)),
       finishedAt := None, error := None, updatedAt := Micro(now))
  }

  function Claim(s: State, worker: Id, job: Id, now: Time): State {
    if job !in s.jobs || s.jobs[job].status != Queued || !Claimed(s.jobs[job], now).RowOk() then s else
    var claimed := Claimed(s.jobs[job], now);
    s.(jobs := s.jobs[job := claimed], workers := s.workers[worker := Worker(job, claimed.revision)],
       claims := s.claims[job := (if job in s.claims then s.claims[job] else 0) + 1])
  }

  function Recovered(j: Job, now: Time): Job {
    if j.status != Running then j
    else if j.attempt < MAX_ATTEMPTS then
      j.(status := Queued, startedAt := None, finishedAt := None, error := None, updatedAt := Micro(now),
         revision := j.revision + 1)
    else
      j.(status := Failed, finishedAt := Some(Micro(now)), error := Some(WorkerRestarted), updatedAt := Micro(now),
         revision := j.revision + 1)
  }

  function AllRecovered(jobs: map<Id, Job>, now: Time): map<Id, Job> { map j | j in jobs :: Recovered(jobs[j], now) }

  /** A restarted process cannot tell which jobs are still being worked on: it takes back all of them, in one
      statement, which one bad row aborts. */
  function Recover(s: State, now: Time): State {
    if forall j :: j in s.jobs && s.jobs[j].status == Running ==> Recovered(s.jobs[j], now).RowOk()
    then s.(jobs := AllRecovered(s.jobs, now))
    else s
  }

  /** The worker's claim is still the job's. */
  predicate Holds(s: State, worker: Id) {
    && worker in s.workers && s.workers[worker].job in s.jobs
    && s.jobs[s.workers[worker].job].status == Running
    && s.jobs[s.workers[worker].job].revision == s.workers[worker].revision
  }

  function Stop(s: State, worker: Id): State { s.(workers := s.workers - {worker}) }

  function FailedJob(j: Job, code: ErrorCode, now: Time): Job {
    j.(status := Failed, draft := None, error := Some(code), finishedAt := Some(Micro(now)), updatedAt := Micro(now),
       revision := j.revision + 1)
  }

  function FinishFailure(s: State, worker: Id, code: ErrorCode, now: Time): State {
    if !Holds(s, worker) then Stop(s, worker) else
    var job := s.workers[worker].job;
    if !FailedJob(s.jobs[job], code, now).RowOk() then Stop(s, worker)
    else Stop(s, worker).(jobs := s.jobs[job := FailedJob(s.jobs[job], code, now)])
  }

  function DraftOf(session: Id, output: GeneratedGuide, position: int, now: Time): Draft {
    Draft(session, position, output.title, Numbered(output.steps), Editing, Micro(now), 1)
  }

  /** One draft per generated guide, in order. */
  function AddDrafts(
    drafts: map<Id, Draft>, session: Id, outputs: seq<GeneratedGuide>, ids: seq<Id>, now: Time): map<Id, Draft>
    requires |ids| == |outputs|
    decreases |outputs|
  {
    if outputs == [] then drafts
    else
      var n := |outputs| - 1;
      AddDrafts(drafts, session, outputs[..n], ids[..n], now)[ids[n] := DraftOf(session, outputs[n], n + 1, now)]
  }

  function SucceededJob(j: Job, draft: Id, now: Time): Job {
    j.(status := Succeeded, draft := Some(draft), error := None, finishedAt := Some(Micro(now)), updatedAt := Micro(now),
       revision := j.revision + 1)
  }

  function FinishSuccess(s: State, worker: Id, outputs: seq<GeneratedGuide>, ids: seq<Id>, now: Time): State
    requires |ids| == |outputs| && outputs != []
  {
    if !Holds(s, worker) then Stop(s, worker) else
    var job := s.workers[worker].job;
    var session := s.jobs[job].session;
    if session !in s.sessions || s.sessions[session].status != GeneratingGuide
       || !SucceededJob(s.jobs[job], ids[0], now).RowOk() || !s.sessions[session].MayUpdate(now) then Stop(s, worker)
    else Stop(s, worker).(
      drafts := AddDrafts(s.drafts, session, outputs, ids, now),
      jobs := s.jobs[job := SucceededJob(s.jobs[job], ids[0], now)],
      sessions := s.sessions[session := s.sessions[session].(status := ReviewingGuide, draft := Some(ids[0]))],
      successes := s.successes + [(job, ids)])
  }

  /** What loading and generating came to. */
  datatype Answer = Generated(outputs: seq<GeneratedGuide>) | NoAnswer(code: ErrorCode)

  /** The end of one attempt: an answer is checked before it is saved. */
  function EndAttempt(s: State, worker: Id, answer: Answer, allowed: set<Id>, ids: seq<Id>, now: Time): State {
    match answer
    case NoAnswer(code) => FinishFailure(s, worker, code, now)
    case Generated(outputs) =>
      if !ValidGenerated(outputs, allowed) || |ids| != |outputs| then FinishFailure(s, worker, InvalidOutput, now)
      else FinishSuccess(s, worker, outputs, ids, now)
  }

  function Retried(j: Job, now: Time): Job {
    j.(status := Queued, error := None, startedAt := None, finishedAt := None, updatedAt := Micro(now),
       revision := j.revision + 1)
  }

  /** The UPDATE itself has no status guard; the service checks under the row locks. */
  function Retry(s: State, job: Id, expected: int, now: Time): State {
    if job !in s.jobs || s.jobs[job].revision != expected || s.jobs[job].status != Failed
       || s.jobs[job].attempt >= MAX_ATTEMPTS || s.jobs[job].session !in s.sessions
       || s.sessions[s.jobs[job].session].status != GeneratingGuide
       || s.sessions[s.jobs[job].session].job != Some(job) || !Retried(s.jobs[job], now).RowOk() then s
    else s.(jobs := s.jobs[job := Retried(s.jobs[job], now)])
  }

  function EditDraft(
    s: State, draft: Id, title: string, steps: seq<GuideStep>, allowed: set<Id>, expected: int, now: Time): State
  {
    if draft !in s.drafts || s.drafts[draft].revision != expected || s.drafts[draft].status != Editing
       || s.drafts[draft].session !in s.sessions || s.sessions[s.drafts[draft].session].status != ReviewingGuide
       || !ValidContent(title, steps, allowed) || Micro(now) < s.drafts[draft].createdAt then s
    else s.(drafts := s.drafts[draft := s.drafts[draft].(title := title, steps := steps, revision := expected + 1)])
  }

  function WithoutDrafts(drafts: map<Id, Draft>, session: Id): map<Id, Draft> {
    map d | d in drafts && drafts[d].session != session :: drafts[d]
  }

  /** A cancelled guide: allowed while a draft is under review, or before, unless a job is still at work. */
  function EndWithoutGuide(s: State, session: Id, now: Time): State {
    if session !in s.sessions then s else
    var n := s.sessions[session];
    if n.status == Ended || (n.status == GeneratingGuide && n.job.Some?
                             && (n.job.value !in s.jobs || s.jobs[n.job.value].status != Failed))
       || !n.MayEnd(now) then s
    else s.(sessions := s.sessions[session := n.(status := Ended, job := None, draft := None)],
            jobs := if n.job.Some? then s.jobs - {n.job.value} else s.jobs,
            drafts := if n.draft.Some? then WithoutDrafts(s.drafts, session) else s.drafts)
  }

  function SavedDrafts(drafts: map<Id, Draft>, session: Id): map<Id, Draft> {
    map d | d in drafts :: if drafts[d].session == session
                           then drafts[d].(status := Saved, revision := drafts[d].revision + 1) else drafts[d]
  }

  /** A completed review saves every draft of the session and deletes the job. */
  function CompleteReview(s: State, session: Id, now: Time): State {
    if session !in s.sessions || s.sessions[session].status != ReviewingGuide || s.sessions[session].job.None?
       || !s.sessions[session].MayEnd(now)
       || exists d :: d in s.drafts && s.drafts[d].session == session && Micro(now) < s.drafts[d].createdAt then s
    else s.(sessions := s.sessions[session := s.sessions[session].(status := Ended, job := None)],
            jobs := s.jobs - {s.sessions[session].job.value},
            drafts := SavedDrafts(s.drafts, session))
  }

  // -------------------------------------------------------------------------------------- runs

  datatype Event =
    | EOpenSession(session: Id, createdAt: Time, startedAt: Time)
    | ECompleteBatch(session: Id, job: Id, now: Time)
    | EClaim(worker: Id, job: Id, now: Time)
    | ERecover(now: Time)
    | EEndAttempt(worker: Id, answer: Answer, allowed: set<Id>, ids: seq<Id>, now: Time)
    | EStop(worker: Id)
    | ERetry(job: Id, expected: int, now: Time)
    | EEditDraft(draft: Id, title: string, steps: seq<GuideStep>, allowed: set<Id>, expected: int, now: Time)
    | EEndWithoutGuide(session: Id, now: Time)
    | ECompleteReview(session: Id, now: Time)

  function Next(s: State, e: Event): State {
    match e
    case EOpenSession(session, createdAt, startedAt) => OpenSession(s, session, createdAt, startedAt)
    case ECompleteBatch(session, job, now) => CompleteBatch(s, session, job, now)
    case EClaim(worker, job, now) => Claim(s, worker, job, now)
    case ERecover(now) => Recover(s, now)
    case EEndAttempt(worker, answer, allowed, ids, now) => EndAttempt(s, worker, answer, allowed, ids, now)
    case EStop(worker) => Stop(s, worker)
    case ERetry(job, expected, now) => Retry(s, job, expected, now)
    case EEditDraft(draft, title, steps, allowed, expected, now) =>
      EditDraft(s, draft, title, steps, allowed, expected, now)
    case EEndWithoutGuide(session, now) => EndWithoutGuide(s, session, now)
    case ECompleteReview(session, now) => CompleteReview(s, session, now)
  }

  ghost predicate NewIds(drafts: map<Id, Draft>, ids: seq<Id>) {
    && (forall i :: 0 <= i < |ids| ==> ids[i] !in drafts)
    && (forall i, j :: 0 <= i < j < |ids| ==> ids[i] != ids[j])
  }

  /** Generated IDs are new. */
  ghost predicate Fair(s: State, e: Event) {
    match e
    case ECompleteBatch(_, job, _) => job !in s.claims
    case EClaim(worker, _, _) => worker !in s.workers
    case EEndAttempt(_, answer, _, ids, _) =>
      NewIds(s.drafts, ids) && (answer.Generated? ==> |ids| == |answer.outputs|)
    case _ => true
  }

  ghost function Run(s: State, run: seq<Event>): State
    decreases |run|
  {
    if run == [] then s else Run(Next(s, run[0]), run[1..])
  }

  ghost predicate FairRun(s: State, run: seq<Event>)
    decreases |run|
  {
    run == [] || (Fair(s, run[0]) && FairRun(Next(s, run[0]), run[1..]))
  }

  // --------------------------------------------------------------------------------- invariant

  /** A row's attempts bound its revision. */
  predicate Bounded(j: Job) {
    match j.status
    case Queued => 1 <= j.revision <= 3 * j.attempt + 1
    case Running => 1 <= j.revision <= 3 * j.attempt - 1
    case _ => 1 <= j.revision <= 3 * j.attempt
  }

  predicate JobOk(id: Id, j: Job, claims: map<Id, nat>) {
    j.RowOk() && Bounded(j) && id in claims && claims[id] == j.attempt
  }

  ghost predicate JobsOk(jobs: map<Id, Job>, claims: map<Id, nat>) {
    && (forall j :: j in jobs ==> JobOk(j, jobs[j], claims))
    && (forall j :: j in claims ==> claims[j] <= MAX_ATTEMPTS)
  }

  /** Jobs and sessions belong together, and a session is under review exactly while its job has succeeded. */
  ghost predicate CoupledOk(jobs: map<Id, Job>, sessions: map<Id, Session>) {
    && (forall j :: j in jobs ==> jobs[j].session in sessions && sessions[jobs[j].session].job == Some(j))
    && (forall n :: n in sessions && sessions[n].job.Some? ==>
          && sessions[n].job.value in jobs && jobs[sessions[n].job.value].session == n
          && sessions[n].status != Ended
          && (sessions[n].status == ReviewingGuide <==> jobs[sessions[n].job.value].status == Succeeded)
          && (sessions[n].status == ReviewingGuide ==> sessions[n].draft == jobs[sessions[n].job.value].draft))
    && (forall n :: n in sessions && sessions[n].job.None? ==> sessions[n].status != ReviewingGuide)
    && (forall n :: n in sessions && sessions[n].status == GeneratingGuide ==> sessions[n].draft.None?)
  }

  /** The session's drafts are `ids`, numbered from one in this order. */
  ghost predicate Ordered(drafts: map<Id, Draft>, session: Id, ids: seq<Id>) {
    && ids != []
    && (forall i :: 0 <= i < |ids| ==>
          ids[i] in drafts && drafts[ids[i]].session == session && drafts[ids[i]].position == i + 1)
    && (forall d :: d in drafts && drafts[d].session == session ==> d in ids)
  }

  ghost predicate DraftsOk(
    jobs: map<Id, Job>, sessions: map<Id, Session>, drafts: map<Id, Draft>, successes: seq<(Id, seq<Id>)>)
  {
    && (forall d :: d in drafts ==> drafts[d].session in sessions && sessions[drafts[d].session].status != GeneratingGuide)
    && (forall i :: 0 <= i < |successes| && successes[i].0 in jobs ==>
          && jobs[successes[i].0].status == Succeeded
          && Ordered(drafts, jobs[successes[i].0].session, successes[i].1)
          && jobs[successes[i].0].draft == Some(successes[i].1[0]))
    && (forall j :: j in jobs && jobs[j].status == Succeeded ==> exists i :: 0 <= i < |successes| && successes[i].0 == j)
  }

  /** No two workers hold the same claim, none is ahead of its job, and none is level with it once the job has
      stopped running. */
  ghost predicate WorkersOk(jobs: map<Id, Job>, workers: map<Id, Worker>, claims: map<Id, nat>) {
    && (forall w :: w in workers ==>
          && workers[w].job in claims
          && (workers[w].job in jobs ==>
                && workers[w].revision <= jobs[workers[w].job].revision
                && (workers[w].revision == jobs[workers[w].job].revision ==> jobs[workers[w].job].status == Running)))
    && (forall v, w :: v in workers && w in workers && workers[v] == workers[w] ==> v == w)
  }

  ghost predicate SuccessesOk(claims: map<Id, nat>, successes: seq<(Id, seq<Id>)>) {
    && (forall i :: 0 <= i < |successes| ==> successes[i].0 in claims)
    && (forall i, j :: 0 <= i < j < |successes| ==> successes[i].0 != successes[j].0)
  }

  ghost predicate Inv(s: State) {
    && JobsOk(s.jobs, s.claims) && CoupledOk(s.jobs, s.sessions)
    && DraftsOk(s.jobs, s.sessions, s.drafts, s.successes)
    && WorkersOk(s.jobs, s.workers, s.claims) && SuccessesOk(s.claims, s.successes)
  }

  lemma EmptyInv()
    ensures Inv(EMPTY)
  {
  }

  lemma NewSessionCoupled(jobs: map<Id, Job>, sessions: map<Id, Session>, session: Id, n: Session)
    requires CoupledOk(jobs, sessions) && session !in sessions
    requires n.status == GeneratingGuide && n.job.None? && n.draft.None?
    ensures CoupledOk(jobs, sessions[session := n])
  {
  }

  lemma NewSessionDrafts(s: State, session: Id, n: Session)
    requires DraftsOk(s.jobs, s.sessions, s.drafts, s.successes) && session !in s.sessions
    ensures DraftsOk(s.jobs, s.sessions[session := n], s.drafts, s.successes)
  {
    hide Ordered;
  }

  lemma OpenSessionKeeps(s: State, session: Id, createdAt: Time, startedAt: Time)
    requires Inv(s)
    ensures Inv(OpenSession(s, session, createdAt, startedAt))
  {
    hide CoupledOk, DraftsOk, JobsOk, WorkersOk, SuccessesOk;
    if session !in s.sessions {
      var n := Session(GeneratingGuide, None, None, createdAt, startedAt);
      NewSessionCoupled(s.jobs, s.sessions, session, n);
      NewSessionDrafts(s, session, n);
    }
  }

  lemma NewJobCoupled(jobs: map<Id, Job>, sessions: map<Id, Session>, session: Id, job: Id, now: Time)
    requires CoupledOk(jobs, sessions) && job !in jobs && session in sessions
    requires sessions[session].status == GeneratingGuide && sessions[session].job.None?
    ensures CoupledOk(jobs[job := NewJob(session, now)], sessions[session := sessions[session].(job := Some(job))])
  {
  }

  lemma NewJobDrafts(s: State, session: Id, job: Id, now: Time)
    requires DraftsOk(s.jobs, s.sessions, s.drafts, s.successes) && SuccessesOk(s.claims, s.successes)
    requires job !in s.claims && session in s.sessions
    ensures DraftsOk(s.jobs[job := NewJob(session, now)], s.sessions[session := s.sessions[session].(job := Some(job))],
                     s.drafts, s.successes)
  {
    hide Ordered;
  }

  lemma NewJobRows(s: State, session: Id, job: Id, now: Time)
    requires JobsOk(s.jobs, s.claims) && job !in s.claims
    ensures JobsOk(s.jobs[job := NewJob(session, now)], s.claims[job := 0])
  {
    forall j | j in s.jobs ensures JobOk(j, s.jobs[j], s.claims[job := 0]) {
      assert JobOk(j, s.jobs[j], s.claims);
    }
    assert JobOk(job, NewJob(session, now), s.claims[job := 0]);
    hide JobOk;
  }

  lemma NewJobWorkers(s: State, session: Id, job: Id, now: Time)
    requires WorkersOk(s.jobs, s.workers, s.claims) && job !in s.claims
    ensures WorkersOk(s.jobs[job := NewJob(session, now)], s.workers, s.claims[job := 0])
  {
  }

  lemma CompleteBatchKeeps(s: State, session: Id, job: Id, now: Time)
    requires Inv(s) && job !in s.claims
    ensures Inv(CompleteBatch(s, session, job, now))
  {
    if CompleteBatch(s, session, job, now) != s {
      NewJobCoupled(s.jobs, s.sessions, session, job, now);
      NewJobDrafts(s, session, job, now);
      NewJobRows(s, session, job, now);
      NewJobWorkers(s, session, job, now);
      assert SuccessesOk(s.claims[job := 0], s.successes);
      hide CoupledOk, DraftsOk, JobsOk, WorkersOk, SuccessesOk;
    }
  }

  // ------------------------------------------------------------------- moves short of a success

  /** Rows that have not succeeded may change, if they keep their session and raise their revision. */
  ghost predicate Moved(jobs: map<Id, Job>, jobs': map<Id, Job>) {
    && jobs'.Keys == jobs.Keys
    && forall j :: j in jobs ==>
         || jobs'[j] == jobs[j]
         || (&& jobs'[j].session == jobs[j].session && jobs'[j].revision > jobs[j].revision
             && jobs'[j].status != Succeeded && jobs[j].status != Succeeded)
  }

  lemma MovedKeeps(s: State, jobs': map<Id, Job>)
    requires Inv(s) && Moved(s.jobs, jobs') && JobsOk(jobs', s.claims)
    ensures Inv(s.(jobs := jobs'))
  {
    MovedCoupled(s.jobs, jobs', s.sessions);
    MovedDrafts(s, jobs');
    hide CoupledOk, DraftsOk, JobsOk, SuccessesOk;
  }

  lemma MovedCoupled(jobs: map<Id, Job>, jobs': map<Id, Job>, sessions: map<Id, Session>)
    requires CoupledOk(jobs, sessions) && Moved(jobs, jobs')
    ensures CoupledOk(jobs', sessions)
  {
  }

  lemma MovedDrafts(s: State, jobs': map<Id, Job>)
    requires DraftsOk(s.jobs, s.sessions, s.drafts, s.successes) && Moved(s.jobs, jobs')
    ensures DraftsOk(jobs', s.sessions, s.drafts, s.successes)
  {
    hide Ordered;
  }

  lemma ClaimedOk(s: State, job: Id, now: Time)
    requires JobsOk(s.jobs, s.claims) && job in s.jobs && s.jobs[job].status == Queued
    requires Claimed(s.jobs[job], now).RowOk()
    ensures var jobs' := s.jobs[job := Claimed(s.jobs[job], now)];
            Moved(s.jobs, jobs') && JobsOk(jobs', s.claims[job := s.claims[job] + 1])
  {
    assert JobOk(job, s.jobs[job], s.claims);
  }

  lemma ClaimKeeps(s: State, worker: Id, job: Id, now: Time)
    requires Inv(s) && worker !in s.workers
    ensures Inv(Claim(s, worker, job, now))
  {
    hide CoupledOk, DraftsOk, Moved, WorkersOk, JobsOk, JobOk, SuccessesOk, Claimed, Job.RowOk;
    if job in s.jobs && s.jobs[job].status == Queued && Claimed(s.jobs[job], now).RowOk() {
      ClaimedOk(s, job, now);
      var jobs' := s.jobs[job := Claimed(s.jobs[job], now)];
      MovedCoupled(s.jobs, jobs', s.sessions);
      MovedDrafts(s, jobs');
      ClaimWorkers(s, worker, job, now);
      ClaimCounted(s, job);
    }
  }

  lemma ClaimCounted(s: State, job: Id)
    requires JobsOk(s.jobs, s.claims) && SuccessesOk(s.claims, s.successes) && job in s.jobs
    ensures job in s.claims && SuccessesOk(s.claims[job := s.claims[job] + 1], s.successes)
  {
    assert JobOk(job, s.jobs[job], s.claims);
  }

  lemma ClaimWorkers(s: State, worker: Id, job: Id, now: Time)
    requires WorkersOk(s.jobs, s.workers, s.claims) && JobsOk(s.jobs, s.claims) && job in s.jobs && worker !in s.workers
    ensures var claimed := Claimed(s.jobs[job], now);
            WorkersOk(s.jobs[job := claimed], s.workers[worker := Worker(job, claimed.revision)],
                      s.claims[job := s.claims[job] + 1])
  {
    hide JobOk;
  }

  lemma RecoveredOk(s: State, now: Time)
    requires JobsOk(s.jobs, s.claims)
    requires forall j :: j in s.jobs && s.jobs[j].status == Running ==> Recovered(s.jobs[j], now).RowOk()
    ensures Moved(s.jobs, AllRecovered(s.jobs, now)) && JobsOk(AllRecovered(s.jobs, now), s.claims)
  {
    forall j | j in s.jobs ensures JobOk(j, Recovered(s.jobs[j], now), s.claims) {
      assert JobOk(j, s.jobs[j], s.claims);
    }
  }

  lemma RecoverKeeps(s: State, now: Time)
    requires Inv(s)
    ensures Inv(Recover(s, now))
  {
    if Recover(s, now) != s {
      RecoveredOk(s, now);
      hide Inv, Moved, JobsOk, AllRecovered;
      MovedKeeps(s, AllRecovered(s.jobs, now));
    }
  }

  lemma StopKeeps(s: State, worker: Id)
    requires Inv(s)
    ensures Inv(Stop(s, worker))
  {
  }

  lemma MoveOneKeeps(s: State, job: Id, j': Job)
    requires Inv(s) && job in s.jobs && JobOk(job, j', s.claims) && Moved(s.jobs, s.jobs[job := j'])
    ensures Inv(s.(jobs := s.jobs[job := j']))
  {
    assert JobsOk(s.jobs[job := j'], s.claims);
    hide Inv, Moved, JobsOk, JobOk;
    MovedKeeps(s, s.jobs[job := j']);
  }

  lemma FailedOk(s: State, job: Id, code: ErrorCode, now: Time)
    requires JobsOk(s.jobs, s.claims) && job in s.jobs && s.jobs[job].status == Running
    requires FailedJob(s.jobs[job], code, now).RowOk()
    ensures var j' := FailedJob(s.jobs[job], code, now); JobOk(job, j', s.claims) && Moved(s.jobs, s.jobs[job := j'])
  {
    assert JobOk(job, s.jobs[job], s.claims);
  }

  lemma FinishFailureKeeps(s: State, worker: Id, code: ErrorCode, now: Time)
    requires Inv(s)
    ensures Inv(FinishFailure(s, worker, code, now))
  {
    if Holds(s, worker) && FailedJob(s.jobs[s.workers[worker].job], code, now).RowOk() {
      var job := s.workers[worker].job;
      FailedOk(s, job, code, now);
      hide Inv, FailedJob, JobOk, Moved;
      MoveOneKeeps(s, job, FailedJob(s.jobs[job], code, now));
      StopKeeps(s.(jobs := s.jobs[job := FailedJob(s.jobs[job], code, now)]), worker);
    } else {
      StopKeeps(s, worker);
    }
  }

  lemma RetryKeeps(s: State, job: Id, expected: int, now: Time)
    requires Inv(s)
    ensures Inv(Retry(s, job, expected, now))
  {
    var s' := Retry(s, job, expected, now);
    if s' != s {
      assert JobOk(job, s.jobs[job], s.claims);
      hide Inv;
      MoveOneKeeps(s, job, s'.jobs[job]);
    }
  }

  // --------------------------------------------------------------------------------- drafts

  lemma EditedOrdered(drafts: map<Id, Draft>, draft: Id, d': Draft, session: Id, ids: seq<Id>)
    requires Ordered(drafts, session, ids) && draft in drafts
    requires d'.session == drafts[draft].session && d'.position == drafts[draft].position
    ensures Ordered(drafts[draft := d'], session, ids)
  {
  }

  lemma EditedDraftsOk(s: State, draft: Id, d': Draft)
    requires DraftsOk(s.jobs, s.sessions, s.drafts, s.successes) && draft in s.drafts
    requires d'.session == s.drafts[draft].session && d'.position == s.drafts[draft].position
    ensures DraftsOk(s.jobs, s.sessions, s.drafts[draft := d'], s.successes)
  {
    forall i | 0 <= i < |s.successes| && s.successes[i].0 in s.jobs
      ensures Ordered(s.drafts[draft := d'], s.jobs[s.successes[i].0].session, s.successes[i].1)
    {
      EditedOrdered(s.drafts, draft, d', s.jobs[s.successes[i].0].session, s.successes[i].1);
    }
    hide Ordered;
  }

  lemma EditDraftKeeps(
      s: State, draft: Id, title: string, steps: seq<GuideStep>, allowed: set<Id>, expected: int, now: Time)
    requires Inv(s)
    ensures Inv(EditDraft(s, draft, title, steps, allowed, expected, now))
  {
    hide ValidContent, CoupledOk, DraftsOk, WorkersOk, JobsOk, SuccessesOk;
    var s' := EditDraft(s, draft, title, steps, allowed, expected, now);
    if s' != s {
      EditedDraftsOk(s, draft, s'.drafts[draft]);
    }
  }

  /** Drafts of other sessions do not matter to a session's order. */
  lemma OtherOrdered(drafts: map<Id, Draft>, drafts': map<Id, Draft>, session: Id, ids: seq<Id>)
    requires Ordered(drafts, session, ids)
    requires forall d :: d in drafts && drafts[d].session == session ==> d in drafts' && drafts'[d] == drafts[d]
    requires forall d :: d in drafts' && drafts'[d].session == session ==> d in drafts && drafts[d].session == session
    ensures Ordered(drafts', session, ids)
  {
  }

  /** A session that ends takes its job with it. */
  lemma EndCoupled(jobs: map<Id, Job>, sessions: map<Id, Session>, session: Id, n': Session)
    requires CoupledOk(jobs, sessions) && session in sessions && n'.status == Ended && n'.job.None?
    ensures var gone := if sessions[session].job.Some? then {sessions[session].job.value} else {};
            CoupledOk(jobs - gone, sessions[session := n'])
  {
  }

  lemma EndJobs(s: State, gone: set<Id>)
    requires JobsOk(s.jobs, s.claims) && WorkersOk(s.jobs, s.workers, s.claims)
    ensures JobsOk(s.jobs - gone, s.claims) && WorkersOk(s.jobs - gone, s.workers, s.claims)
  {
    hide JobOk;
  }

  /** The drafts of the ended session may go or change their status; the others stay. */
  lemma EndDrafts(s: State, session: Id, n': Session, drafts': map<Id, Draft>)
    requires CoupledOk(s.jobs, s.sessions) && DraftsOk(s.jobs, s.sessions, s.drafts, s.successes)
    requires session in s.sessions && n'.status == Ended && drafts'.Keys <= s.drafts.Keys
    requires forall d :: d in drafts' ==> drafts'[d].session == s.drafts[d].session
    requires forall d :: d in s.drafts && s.drafts[d].session != session ==> d in drafts' && drafts'[d] == s.drafts[d]
    ensures var gone := if s.sessions[session].job.Some? then {s.sessions[session].job.value} else {};
            DraftsOk(s.jobs - gone, s.sessions[session := n'], drafts', s.successes)
  {
    var gone := if s.sessions[session].job.Some? then {s.sessions[session].job.value} else {};
    forall i | 0 <= i < |s.successes| && s.successes[i].0 in s.jobs - gone
      ensures Ordered(drafts', s.jobs[s.successes[i].0].session, s.successes[i].1)
    {
      assert s.jobs[s.successes[i].0].session != session;
      OtherOrdered(s.drafts, drafts', s.jobs[s.successes[i].0].session, s.successes[i].1);
    }
    hide Ordered;
  }

  lemma EndKeeps(s: State, session: Id, n': Session, drafts': map<Id, Draft>)
    requires Inv(s) && session in s.sessions && n'.status == Ended && n'.job.None? && drafts'.Keys <= s.drafts.Keys
    requires forall d :: d in drafts' ==> drafts'[d].session == s.drafts[d].session
    requires forall d :: d in s.drafts && s.drafts[d].session != session ==> d in drafts' && drafts'[d] == s.drafts[d]
    ensures var gone := if s.sessions[session].job.Some? then {s.sessions[session].job.value} else {};
            Inv(s.(jobs := s.jobs - gone, sessions := s.sessions[session := n'], drafts := drafts'))
  {
    var gone := if s.sessions[session].job.Some? then {s.sessions[session].job.value} else {};
    EndCoupled(s.jobs, s.sessions, session, n');
    EndJobs(s, gone);
    EndDrafts(s, session, n', drafts');
    hide CoupledOk, JobsOk, WorkersOk, DraftsOk, SuccessesOk;
  }

  lemma EndWithoutGuideKeeps(s: State, session: Id, now: Time)
    requires Inv(s)
    ensures Inv(EndWithoutGuide(s, session, now))
  {
    hide Inv;
    var s' := EndWithoutGuide(s, session, now);
    if s' != s {
      var n := s.sessions[session];
      EndedDrafts(s.drafts, session, n.draft.Some?);
      hide WithoutDrafts;
      EndKeeps(s, session, n.(status := Ended, job := None, draft := None),
               if n.draft.Some? then WithoutDrafts(s.drafts, session) else s.drafts);
      assert n.job.None? ==> s.jobs - {} == s.jobs;
    }
  }

  lemma EndedDrafts(drafts: map<Id, Draft>, session: Id, dropped: bool)
    ensures var drafts' := if dropped then WithoutDrafts(drafts, session) else drafts;
            && drafts'.Keys <= drafts.Keys
            && (forall d :: d in drafts' ==> drafts'[d].session == drafts[d].session)
            && (forall d :: d in drafts && drafts[d].session != session ==> d in drafts' && drafts'[d] == drafts[d])
  {
  }

  lemma CompleteReviewKeeps(s: State, session: Id, now: Time)
    requires Inv(s)
    ensures Inv(CompleteReview(s, session, now))
  {
    var s' := CompleteReview(s, session, now);
    if s' != s {
      hide Inv;
      EndKeeps(s, session, s'.sessions[session], s'.drafts);
    }
  }

  // --------------------------------------------------------------------------------- success

  ghost predicate Added(
    drafts: map<Id, Draft>, drafts': map<Id, Draft>, session: Id, outputs: seq<GeneratedGuide>, ids: seq<Id>, now: Time,
    n: nat)
    requires n <= |ids| == |outputs|
  {
    && (forall i :: 0 <= i < n ==> ids[i] in drafts' && drafts'[ids[i]] == DraftOf(session, outputs[i], i + 1, now))
    && (forall d :: d in drafts ==> d in drafts' && drafts'[d] == drafts[d])
    && (forall d :: d in drafts' ==> d in drafts || d in ids[..n])
  }

  lemma AddOne(
      drafts: map<Id, Draft>, drafts': map<Id, Draft>, session: Id, outputs: seq<GeneratedGuide>, ids: seq<Id>,
      now: Time, n: nat)
    requires n < |ids| == |outputs| && NewIds(drafts, ids) && Added(drafts, drafts', session, outputs, ids, now, n)
    ensures Added(drafts, drafts'[ids[n] := DraftOf(session, outputs[n], n + 1, now)], session, outputs, ids, now, n + 1)
  {
    hide DraftOf;
    assert ids[..n + 1] == ids[..n] + [ids[n]];
  }

  lemma {:induction false} AddedPrefix(
      drafts: map<Id, Draft>, session: Id, outputs: seq<GeneratedGuide>, ids: seq<Id>, now: Time, n: nat)
    requires n <= |ids| == |outputs| && NewIds(drafts, ids)
    ensures Added(drafts, AddDrafts(drafts, session, outputs[..n], ids[..n], now), session, outputs, ids, now, n)
    decreases n
  {
    if n > 0 {
      AddedPrefix(drafts, session, outputs, ids, now, n - 1);
      AddOne(drafts, AddDrafts(drafts, session, outputs[..n - 1], ids[..n - 1], now), session, outputs, ids, now, n - 1);
      hide Added, DraftOf, NewIds;
      assert outputs[..n][..n - 1] == outputs[..n - 1] && ids[..n][..n - 1] == ids[..n - 1];
    }
  }

  lemma AddedDrafts(drafts: map<Id, Draft>, session: Id, outputs: seq<GeneratedGuide>, ids: seq<Id>, now: Time)
    requires |ids| == |outputs| && NewIds(drafts, ids)
    ensures Added(drafts, AddDrafts(drafts, session, outputs, ids, now), session, outputs, ids, now, |ids|)
  {
    AddedPrefix(drafts, session, outputs, ids, now, |ids|);
    assert outputs[..|ids|] == outputs && ids[..|ids|] == ids;
  }

  lemma AddedOrdered(drafts: map<Id, Draft>, session: Id, outputs: seq<GeneratedGuide>, ids: seq<Id>, now: Time)
    requires |ids| == |outputs| && NewIds(drafts, ids) && outputs != []
    requires forall d :: d in drafts ==> drafts[d].session != session
    ensures Ordered(AddDrafts(drafts, session, outputs, ids, now), session, ids)
  {
    AddedDrafts(drafts, session, outputs, ids, now);
  }

  lemma SucceededOk(s: State, job: Id, draft: Id, now: Time)
    requires JobsOk(s.jobs, s.claims) && WorkersOk(s.jobs, s.workers, s.claims)
    requires job in s.jobs && s.jobs[job].status == Running && SucceededJob(s.jobs[job], draft, now).RowOk()
    ensures var jobs' := s.jobs[job := SucceededJob(s.jobs[job], draft, now)];
            JobsOk(jobs', s.claims) && WorkersOk(jobs', s.workers, s.claims)
  {
    assert JobOk(job, s.jobs[job], s.claims);
  }

  lemma SucceededCoupled(s: State, job: Id, draft: Id, now: Time)
    requires CoupledOk(s.jobs, s.sessions) && job in s.jobs && s.jobs[job].status == Running
    ensures var n := s.jobs[job].session;
            && n in s.sessions && s.sessions[n].status == GeneratingGuide
            && CoupledOk(s.jobs[job := SucceededJob(s.jobs[job], draft, now)],
                         s.sessions[n := s.sessions[n].(status := ReviewingGuide, draft := Some(draft))])
  {
  }

  /** The drafts of the finished session are in order, and those of every other session still are. */
  lemma SucceededOrders(s: State, job: Id, outputs: seq<GeneratedGuide>, ids: seq<Id>, now: Time)
    requires CoupledOk(s.jobs, s.sessions) && DraftsOk(s.jobs, s.sessions, s.drafts, s.successes)
    requires job in s.jobs && s.jobs[job].status == Running && s.sessions[s.jobs[job].session].status == GeneratingGuide
    requires |ids| == |outputs| && NewIds(s.drafts, ids) && outputs != []
    ensures var n := s.jobs[job].session; var drafts' := AddDrafts(s.drafts, n, outputs, ids, now);
            && Ordered(drafts', n, ids)
            && forall i :: 0 <= i < |s.successes| && s.successes[i].0 in s.jobs ==>
                 s.successes[i].0 != job && Ordered(drafts', s.jobs[s.successes[i].0].session, s.successes[i].1)
  {
    var n := s.jobs[job].session;
    AddedDrafts(s.drafts, n, outputs, ids, now);
    AddedOrdered(s.drafts, n, outputs, ids, now);
    var drafts' := AddDrafts(s.drafts, n, outputs, ids, now);
    hide AddDrafts;
    forall i | 0 <= i < |s.successes| && s.successes[i].0 in s.jobs
      ensures s.successes[i].0 != job && Ordered(drafts', s.jobs[s.successes[i].0].session, s.successes[i].1)
    {
      assert s.jobs[s.successes[i].0].session != n;
      OtherOrdered(s.drafts, drafts', s.jobs[s.successes[i].0].session, s.successes[i].1);
    }
  }

  lemma SucceededDrafts(s: State, job: Id, outputs: seq<GeneratedGuide>, ids: seq<Id>, now: Time)
    requires CoupledOk(s.jobs, s.sessions) && DraftsOk(s.jobs, s.sessions, s.drafts, s.successes)
    requires job in s.jobs && s.jobs[job].status == Running && s.sessions[s.jobs[job].session].status == GeneratingGuide
    requires |ids| == |outputs| && NewIds(s.drafts, ids) && outputs != []
    ensures var n := s.jobs[job].session;
            DraftsOk(s.jobs[job := SucceededJob(s.jobs[job], ids[0], now)],
                     s.sessions[n := s.sessions[n].(status := ReviewingGuide, draft := Some(ids[0]))],
                     AddDrafts(s.drafts, n, outputs, ids, now), s.successes + [(job, ids)])
  {
    var n := s.jobs[job].session;
    AddedDrafts(s.drafts, n, outputs, ids, now);
    SucceededOrders(s, job, outputs, ids, now);
    hide Ordered, AddDrafts;
    var jobs' := s.jobs[job := SucceededJob(s.jobs[job], ids[0], now)];
    var successes' := s.successes + [(job, ids)];
    assert successes'[|s.successes|].0 == job;
    forall j | j in jobs' && jobs'[j].status == Succeeded
      ensures exists i :: 0 <= i < |successes'| && successes'[i].0 == j
    {
      if j != job {
        var i :| 0 <= i < |s.successes| && s.successes[i].0 == j;
        assert successes'[i].0 == j;
      }
    }
  }

  lemma SuccessKeeps(s: State, job: Id, outputs: seq<GeneratedGuide>, ids: seq<Id>, now: Time)
    requires Inv(s) && |ids| == |outputs| && NewIds(s.drafts, ids) && outputs != []
    requires job in s.jobs && s.jobs[job].status == Running && SucceededJob(s.jobs[job], ids[0], now).RowOk()
    ensures var n := s.jobs[job].session;
            && n in s.sessions && s.sessions[n].status == GeneratingGuide
            && Inv(s.(drafts := AddDrafts(s.drafts, n, outputs, ids, now),
                      jobs := s.jobs[job := SucceededJob(s.jobs[job], ids[0], now)],
                      sessions := s.sessions[n := s.sessions[n].(status := ReviewingGuide, draft := Some(ids[0]))],
                      successes := s.successes + [(job, ids)]))
  {
    assert JobOk(job, s.jobs[job], s.claims);
    SucceededOk(s, job, ids[0], now);
    SucceededCoupled(s, job, ids[0], now);
    SucceededDrafts(s, job, outputs, ids, now);
    SucceededOnce(s, job, ids);
    hide CoupledOk, DraftsOk, JobsOk, WorkersOk, SuccessesOk, AddDrafts, SucceededJob, NewIds;
  }

  lemma FinishSuccessKeeps(s: State, worker: Id, outputs: seq<GeneratedGuide>, ids: seq<Id>, now: Time)
    requires Inv(s) && |ids| == |outputs| && NewIds(s.drafts, ids) && outputs != []
    ensures Inv(FinishSuccess(s, worker, outputs, ids, now))
  {
    hide Inv, AddDrafts, SucceededJob, NewIds, Job.RowOk;
    if FinishSuccess(s, worker, outputs, ids, now) != Stop(s, worker) {
      var job := s.workers[worker].job;
      var n := s.jobs[job].session;
      SuccessKeeps(s, job, outputs, ids, now);
      StopKeeps(s.(drafts := AddDrafts(s.drafts, n, outputs, ids, now),
                   jobs := s.jobs[job := SucceededJob(s.jobs[job], ids[0], now)],
                   sessions := s.sessions[n := s.sessions[n].(status := ReviewingGuide, draft := Some(ids[0]))],
                   successes := s.successes + [(job, ids)]), worker);
    } else {
      StopKeeps(s, worker);
    }
  }

  lemma SucceededOnce(s: State, job: Id, ids: seq<Id>)
    requires DraftsOk(s.jobs, s.sessions, s.drafts, s.successes) && SuccessesOk(s.claims, s.successes)
    requires job in s.jobs && s.jobs[job].status == Running && job in s.claims
    ensures SuccessesOk(s.claims, s.successes + [(job, ids)])
  {
    hide Ordered;
  }

  lemma EndAttemptKeeps(s: State, worker: Id, answer: Answer, allowed: set<Id>, ids: seq<Id>, now: Time)
    requires Inv(s) && NewIds(s.drafts, ids)
    ensures Inv(EndAttempt(s, worker, answer, allowed, ids, now))
  {
    hide Inv, FinishFailure, FinishSuccess;
    match answer
    case NoAnswer(code) => FinishFailureKeeps(s, worker, code, now);
    case Generated(outputs) =>
      if !ValidGenerated(outputs, allowed) || |ids| != |outputs| {
        FinishFailureKeeps(s, worker, InvalidOutput, now);
      } else {
        FinishSuccessKeeps(s, worker, outputs, ids, now);
      }
  }

  // ------------------------------------------------------------------------------------- runs

  lemma StepKeeps(s: State, e: Event)
    requires Inv(s) && Fair(s, e)
    ensures Inv(Next(s, e))
  {
    hide Inv, CompleteBatch, Claim, Recover, EndAttempt, Stop, Retry, EditDraft, EndWithoutGuide, CompleteReview,
         NewIds;
    match e
    case EOpenSession(session, createdAt, startedAt) => OpenSessionKeeps(s, session, createdAt, startedAt);
    case ECompleteBatch(session, job, now) => CompleteBatchKeeps(s, session, job, now);
    case EClaim(worker, job, now) => ClaimKeeps(s, worker, job, now);
    case ERecover(now) => RecoverKeeps(s, now);
    case EEndAttempt(worker, answer, allowed, ids, now) => EndAttemptKeeps(s, worker, answer, allowed, ids, now);
    case EStop(worker) => StopKeeps(s, worker);
    case ERetry(job, expected, now) => RetryKeeps(s, job, expected, now);
    case EEditDraft(draft, title, steps, allowed, expected, now) =>
      EditDraftKeeps(s, draft, title, steps, allowed, expected, now);
    case EEndWithoutGuide(session, now) => EndWithoutGuideKeeps(s, session, now);
    case ECompleteReview(session, now) => CompleteReviewKeeps(s, session, now);
  }

  lemma {:induction false} RunKeeps(s: State, run: seq<Event>)
    requires Inv(s) && FairRun(s, run)
    ensures Inv(Run(s, run))
    decreases |run|
  {
    hide Inv, Next, Fair;
    if run != [] {
      StepKeeps(s, run[0]);
      RunKeeps(Next(s, run[0]), run[1..]);
    }
  }

  // --------------------------------------------------------------------------------- theorems

  /** While a job row exists it has succeeded exactly when its session is under review; then the session's
      drafts are numbered 1, 2, ... in the order of generation, and job and session point to the first. */
  lemma JobSessionDrafts(run: seq<Event>, job: Id)
    requires FairRun(EMPTY, run) && job in Run(EMPTY, run).jobs
    ensures var s := Run(EMPTY, run); var j := s.jobs[job];
            && j.session in s.sessions && s.sessions[j.session].job == Some(job)
            && (j.status == Succeeded <==> s.sessions[j.session].status == ReviewingGuide)
            && (j.status != Succeeded <==> s.sessions[j.session].status == GeneratingGuide)
            && (j.status != Succeeded ==> forall d :: d in s.drafts ==> s.drafts[d].session != j.session)
            && (j.status == Succeeded ==>
                  (exists i ::
                     && 0 <= i < |s.successes| && s.successes[i].0 == job
                     && Ordered(s.drafts, j.session, s.successes[i].1)
                     && j.draft == Some(s.successes[i].1[0]) && s.sessions[j.session].draft == j.draft))
  {
    EmptyInv();
    RunKeeps(EMPTY, run);
    var s := Run(EMPTY, run);
    if s.jobs[job].status == Succeeded {
      var i :| 0 <= i < |s.successes| && s.successes[i].0 == job;
    }
    hide Ordered;
  }

  /** The clock has not gone back behind what the job and its session have stored. */
  predicate InTime(j: Job, n: Session, now: Time) {
    j.createdAt <= Micro(now) && (j.startedAt.Some? ==> j.startedAt.value <= Micro(now)) && n.MayUpdate(now)
  }

  /** A worker that still holds its job saves valid output as it is, one draft per guide in order, exactly if
      the clock has not gone back behind the rows; else it stops and its job goes on as running. */
  lemma SuccessSavesOutputs(
      run: seq<Event>, worker: Id, outputs: seq<GeneratedGuide>, allowed: set<Id>, ids: seq<Id>, now: Time)
    requires FairRun(EMPTY, run) && Holds(Run(EMPTY, run), worker)
    requires ValidGenerated(outputs, allowed) && |ids| == |outputs| && NewIds(Run(EMPTY, run).drafts, ids)
    ensures var s := Run(EMPTY, run); var s' := EndAttempt(s, worker, Generated(outputs), allowed, ids, now);
            var job := s.workers[worker].job; var session := s.jobs[job].session;
            && session in s.sessions
            && (!InTime(s.jobs[job], s.sessions[session], now) ==> s' == Stop(s, worker))
            && (InTime(s.jobs[job], s.sessions[session], now) ==>
                  && job in s'.jobs && s'.jobs[job].status == Succeeded && s'.jobs[job].draft == Some(ids[0])
                  && session in s'.sessions && s'.sessions[session].status == ReviewingGuide
                  && Ordered(s'.drafts, session, ids)
                  && forall i :: 0 <= i < |ids| ==>
                       ids[i] in s'.drafts && s'.drafts[ids[i]].title == outputs[i].title
                       && s'.drafts[ids[i]].steps == Numbered(outputs[i].steps))
  {
    EmptyInv();
    RunKeeps(EMPTY, run);
    var s := Run(EMPTY, run);
    var job := s.workers[worker].job;
    assert JobOk(job, s.jobs[job], s.claims);
    SucceededCoupled(s, job, ids[0], now);
    InTimeExact(s.jobs[job], s.sessions[s.jobs[job].session], ids[0], now);
    NewDrafts(s, job, outputs, ids, now);
    hide Inv, AddDrafts, ValidGenerated, NewIds, Ordered, Run, FairRun, JobOk, Job.RowOk, InTime;
  }

  lemma InTimeExact(j: Job, n: Session, draft: Id, now: Time)
    requires j.RowOk() && j.status == Running
    ensures SucceededJob(j, draft, now).RowOk() && n.MayUpdate(now) <==> InTime(j, n, now)
  {
  }

  lemma NewDrafts(s: State, job: Id, outputs: seq<GeneratedGuide>, ids: seq<Id>, now: Time)
    requires DraftsOk(s.jobs, s.sessions, s.drafts, s.successes) && CoupledOk(s.jobs, s.sessions)
    requires job in s.jobs && s.jobs[job].status == Running && outputs != []
    requires |ids| == |outputs| && NewIds(s.drafts, ids)
    ensures var session := s.jobs[job].session; var drafts' := AddDrafts(s.drafts, session, outputs, ids, now);
            && Ordered(drafts', session, ids)
            && forall i :: 0 <= i < |ids| ==>
                 ids[i] in drafts' && drafts'[ids[i]].title == outputs[i].title
                 && drafts'[ids[i]].steps == Numbered(outputs[i].steps)
  {
    var session := s.jobs[job].session;
    AddedDrafts(s.drafts, session, outputs, ids, now);
    NoDraftsYet(s.sessions, s.drafts, s.jobs, s.successes, session);
    AddedOrdered(s.drafts, session, outputs, ids, now);
    hide AddDrafts, NewIds, Ordered, DraftsOk, CoupledOk;
  }

  lemma NoDraftsYet(
      sessions: map<Id, Session>, drafts: map<Id, Draft>, jobs: map<Id, Job>, successes: seq<(Id, seq<Id>)>, session: Id)
    requires DraftsOk(jobs, sessions, drafts, successes)
    requires session in sessions && sessions[session].status == GeneratingGuide
    ensures forall d :: d in drafts ==> drafts[d].session != session
  {
  }

  /** A worker whose claim was overtaken changes neither job nor session nor drafts, whatever it brings; and
      of all workers at most one still holds a job. */
  lemma Fencing(run: seq<Event>, worker: Id, answer: Answer, allowed: set<Id>, ids: seq<Id>, now: Time)
    requires FairRun(EMPTY, run) && worker in Run(EMPTY, run).workers
    ensures var s := Run(EMPTY, run); var job := s.workers[worker].job;
            && (job !in s.jobs || s.jobs[job].revision != s.workers[worker].revision ==>
                  EndAttempt(s, worker, answer, allowed, ids, now) == Stop(s, worker))
            && (job in s.jobs ==> s.workers[worker].revision <= s.jobs[job].revision)
            && (forall other :: Holds(s, worker) && Holds(s, other) && s.workers[other].job == job ==> other == worker)
  {
    EmptyInv();
    RunKeeps(EMPTY, run);
    hide ValidGenerated;
  }

  // ------------------------------------------------------------------- a clock that does not go back

  // No instant that a CHECK compares with a later one lies after `t`.

  ghost predicate JobsStored(jobs: map<Id, Job>, t: Time) {
    forall j :: j in jobs ==>
      jobs[j].createdAt <= Micro(t) && (jobs[j].startedAt.Some? ==> jobs[j].startedAt.value <= Micro(t))
  }

  ghost predicate SessionsStored(sessions: map<Id, Session>, t: Time) {
    forall n :: n in sessions ==> sessions[n].MayEnd(t)
  }

  ghost predicate DraftsStored(drafts: map<Id, Draft>, t: Time) {
    forall d :: d in drafts ==> drafts[d].createdAt <= Micro(t)
  }

  ghost predicate StoredBy(s: State, t: Time) {
    JobsStored(s.jobs, t) && SessionsStored(s.sessions, t) && DraftsStored(s.drafts, t)
  }

  /** The clock after the event, if it read `t` before. */
  function Clock(e: Event, t: Time): Time {
    match e
    case EOpenSession(_, _, _) => t
    case EStop(_) => t
    case _ => e.now
  }

  predicate Ticks(e: Event, t: Time) {
    t <= Clock(e, t) && (e.EOpenSession? ==> e.createdAt <= Micro(t) && e.startedAt <= Micro(t))
  }

  function ClockAfter(run: seq<Event>, t: Time): Time {
    if run == [] then t else ClockAfter(run[1..], Clock(run[0], t))
  }

  predicate Ticking(run: seq<Event>, t: Time) {
    run == [] || (Ticks(run[0], t) && Ticking(run[1..], Clock(run[0], t)))
  }

  lemma LaterStored(s: State, t: Time, u: Time)
    requires StoredBy(s, t) && t <= u
    ensures StoredBy(s, u)
  {
  }

  lemma JobsStepStored(s: State, e: Event, t: Time)
    requires JobsStored(s.jobs, Clock(e, t))
    ensures JobsStored(Next(s, e).jobs, Clock(e, t))
  {
    hide Job.RowOk, ValidContent, ValidGenerated, AddDrafts, WithoutDrafts, SavedDrafts;
  }

  lemma SessionsStepStored(s: State, e: Event, t: Time)
    requires SessionsStored(s.sessions, Clock(e, t)) && Ticks(e, t)
    ensures SessionsStored(Next(s, e).sessions, Clock(e, t))
  {
    hide Job.RowOk, ValidContent, ValidGenerated, AddDrafts, WithoutDrafts, SavedDrafts, Claimed, AllRecovered,
         FailedJob, SucceededJob, Retried;
  }

  lemma DraftsStepStored(s: State, e: Event, t: Time)
    requires DraftsStored(s.drafts, Clock(e, t)) && Fair(s, e)
    ensures DraftsStored(Next(s, e).drafts, Clock(e, t))
  {
    if e.EEndAttempt? {
      EndedDraftsStored(s, e);
    } else {
      hide Job.RowOk, ValidContent, Claimed, AllRecovered, Retried, NewIds;
    }
  }

  lemma EndedDraftsStored(s: State, e: Event)
    requires e.EEndAttempt? && DraftsStored(s.drafts, e.now) && Fair(s, e)
    ensures DraftsStored(Next(s, e).drafts, e.now)
  {
    hide Job.RowOk, AddDrafts, FailedJob, SucceededJob, NewIds, DraftsStored;
    if e.answer.Generated? && ValidGenerated(e.answer.outputs, e.allowed) && |e.ids| == |e.answer.outputs|
       && Holds(s, e.worker) {
      AddedDraftsStored(s.drafts, s.jobs[s.workers[e.worker].job].session, e.answer.outputs, e.ids, e.now);
    }
  }

  lemma AddedDraftsStored(drafts: map<Id, Draft>, session: Id, outputs: seq<GeneratedGuide>, ids: seq<Id>, now: Time)
    requires DraftsStored(drafts, now) && |ids| == |outputs| && NewIds(drafts, ids)
    ensures DraftsStored(AddDrafts(drafts, session, outputs, ids, now), now)
  {
    AddedDrafts(drafts, session, outputs, ids, now);
    hide AddDrafts;
  }

  lemma {:induction false} TickingStored(s: State, run: seq<Event>, t: Time)
    requires FairRun(s, run) && Ticking(run, t) && StoredBy(s, t)
    ensures StoredBy(Run(s, run), ClockAfter(run, t))
    decreases |run|
  {
    hide Next, Fair, JobsStored, SessionsStored, DraftsStored;
    if run != [] {
      var e := run[0];
      LaterStored(s, t, Clock(e, t));
      JobsStepStored(s, e, t);
      SessionsStepStored(s, e, t);
      DraftsStepStored(s, e, t);
      TickingStored(Next(s, e), run[1..], Clock(e, t));
    }
  }

  /** With a clock that does not go back no CHECK on instants ever refuses a step: whoever holds a job is in
      time to save its drafts, and every session can be updated and ended. */
  lemma TickingIsInTime(run: seq<Event>, t: Time, now: Time)
    requires FairRun(EMPTY, run) && Ticking(run, t) && ClockAfter(run, t) <= now
    ensures var s := Run(EMPTY, run);
            && (forall j :: j in s.jobs && s.jobs[j].session in s.sessions ==>
                  InTime(s.jobs[j], s.sessions[s.jobs[j].session], now))
            && (forall n :: n in s.sessions ==> s.sessions[n].MayEnd(now))
            && (forall d :: d in s.drafts ==> s.drafts[d].createdAt <= Micro(now))
  {
    TickingStored(EMPTY, run, t);
    var s := Run(EMPTY, run);
    LaterStored(s, ClockAfter(run, t), now);
  }

  /** The job has moved on from this claim, or is gone for good. */
  predicate Overtaken(s: State, w: Worker) {
    w.job in s.claims && (w.job in s.jobs ==> w.revision < s.jobs[w.job].revision)
  }

  lemma {:induction false} StaysOvertaken(s: State, run: seq<Event>, w: Worker)
    requires Inv(s) && FairRun(s, run) && Overtaken(s, w)
    ensures Overtaken(Run(s, run), w)
    decreases |run|
  {
    hide Inv, Next, Fair, Progress;
    if run != [] {
      var s' := Next(s, run[0]);
      StepKeeps(s, run[0]);
      NeverReborn(s, run[0], w.job);
      if w.job in s.jobs && w.job in s'.jobs && s'.jobs[w.job] != s.jobs[w.job] {
        StepProgress(s, run[0], w.job);
        RaisesRevision(s.jobs[w.job], s'.jobs[w.job]);
      }
      StaysOvertaken(s', run[1..], w);
    }
  }

  /** A worker that does not hold its job (because a restart took it back, perhaps for another worker) never
      holds it again under that claim, and in every later state each of its endings only stops it. */
  lemma LostForever(
      before: seq<Event>, after: seq<Event>, worker: Id, answer: Answer, allowed: set<Id>, ids: seq<Id>, now: Time)
    requires FairRun(EMPTY, before) && FairRun(Run(EMPTY, before), after)
    requires worker in Run(EMPTY, before).workers && !Holds(Run(EMPTY, before), worker)
    ensures var s, s' := Run(EMPTY, before), Run(Run(EMPTY, before), after);
            worker in s'.workers && s'.workers[worker] == s.workers[worker] ==>
              !Holds(s', worker) && EndAttempt(s', worker, answer, allowed, ids, now) == Stop(s', worker)
  {
    EmptyInv();
    RunKeeps(EMPTY, before);
    var s := Run(EMPTY, before);
    assert Overtaken(s, s.workers[worker]);
    StaysOvertaken(s, after, s.workers[worker]);
    hide Inv, ValidGenerated, Run, FairRun;
  }

  /** Over any run a job's drafts are created at most once, it is claimed at most three times, its row changes
      at most eight times, and a QUEUED job always has an attempt left, though the claim does not look. */
  lemma JobBounds(run: seq<Event>, job: Id)
    requires FairRun(EMPTY, run) && job in Run(EMPTY, run).claims
    ensures var s := Run(EMPTY, run);
            && s.claims[job] <= 3
            && (forall i, j :: 0 <= i < j < |s.successes| ==> s.successes[i].0 != s.successes[j].0)
            && (job in s.jobs ==> s.jobs[job].RowOk() && s.jobs[job].revision <= 9 && s.claims[job] == s.jobs[job].attempt)
            && (job in s.jobs && s.jobs[job].status == Queued ==> s.jobs[job].attempt < 3)
  {
    EmptyInv();
    RunKeeps(EMPTY, run);
    var s := Run(EMPTY, run);
    if job in s.jobs {
      assert JobOk(job, s.jobs[job], s.claims);
    }
  }

  function Rank(j: Job): int {
    match j.status
    case Running => 2
    case Failed => 1
    case _ => 0
  }

  predicate CanTransition(a: Job, b: Job) {
    match a.status
    case Queued => b.status == Running && 0 <= a.attempt < 3
    case Running => 1 <= a.attempt <= 3 && (b.status in {Succeeded, Failed} || (b.status == Queued && a.attempt < 3))
    case Failed => b.status == Queued && 1 <= a.attempt < 3
    case Succeeded => false
  }

  /** Every change of a job row is one the domain allows, raises the revision by one, and lowers the measure
      (attempts left, rank of the status): a job's life ends. */
  predicate Progress(a: Job, b: Job) {
    && CanTransition(a, b) && b.revision == a.revision + 1
    && (b.attempt > a.attempt || (b.attempt == a.attempt && Rank(b) < Rank(a)))
  }

  lemma ClaimProgress(s: State, job: Id, now: Time, expected: int)
    requires JobsOk(s.jobs, s.claims) && job in s.jobs
    ensures s.jobs[job].status == Queued ==> Progress(s.jobs[job], Claimed(s.jobs[job], now))
    ensures s.jobs[job].status == Running ==> Progress(s.jobs[job], Recovered(s.jobs[job], now))
    ensures Retry(s, job, expected, now) != s ==> Progress(s.jobs[job], Retry(s, job, expected, now).jobs[job])
  {
    assert JobOk(job, s.jobs[job], s.claims);
  }

  lemma FinishProgress(s: State, e: Event, job: Id)
    requires JobsOk(s.jobs, s.claims) && e.EEndAttempt? && job in s.jobs && Next(s, e).jobs[job] != s.jobs[job]
    ensures Progress(s.jobs[job], Next(s, e).jobs[job])
  {
    assert JobOk(job, s.jobs[job], s.claims);
    EndedJob(s, e, job);
    hide Next, JobsOk;
  }

  lemma EndedJob(s: State, e: Event, job: Id)
    requires e.EEndAttempt? && job in s.jobs && Next(s, e).jobs[job] != s.jobs[job]
    ensures s.jobs[job].status == Running
    ensures var j' := Next(s, e).jobs[job];
            || (e.answer.Generated? && e.ids != [] && j' == SucceededJob(s.jobs[job], e.ids[0], e.now))
            || j' == FailedJob(s.jobs[job], if e.answer.NoAnswer? then e.answer.code else InvalidOutput, e.now)
  {
    hide AddDrafts, Job.RowOk, SucceededJob, FailedJob;
  }

  lemma StepProgress(s: State, e: Event, job: Id)
    requires Inv(s) && Fair(s, e) && job in s.jobs && job in Next(s, e).jobs && Next(s, e).jobs[job] != s.jobs[job]
    ensures Progress(s.jobs[job], Next(s, e).jobs[job])
  {
    assert JobsOk(s.jobs, s.claims) && job in s.claims by { assert JobOk(job, s.jobs[job], s.claims); }
    hide Inv, JobsOk, JobOk, EndAttempt, ValidContent, NewIds, WithoutDrafts, SavedDrafts, Claimed, Recovered, Retried,
         Progress, Job.RowOk;
    if e.EEndAttempt? {
      FinishProgress(s, e, job);
    } else if e.EClaim? {
      ClaimProgress(s, job, e.now, 0);
    } else if e.ERecover? {
      RecoverProgress(s, job, e.now);
    } else if e.ERetry? {
      ClaimProgress(s, job, e.now, e.expected);
    } else {
      OthersKeepRow(s, e, job);
    }
  }

  lemma OthersKeepRow(s: State, e: Event, job: Id)
    requires !e.EEndAttempt? && !e.EClaim? && !e.ERecover? && !e.ERetry? && Fair(s, e)
    requires job in s.jobs && job in s.claims && job in Next(s, e).jobs
    ensures Next(s, e).jobs[job] == s.jobs[job]
  {
    hide ValidContent, NewIds, WithoutDrafts, SavedDrafts, Job.RowOk;
  }

  lemma RecoverProgress(s: State, job: Id, now: Time)
    requires JobsOk(s.jobs, s.claims) && job in s.jobs && Recovered(s.jobs[job], now) != s.jobs[job]
    ensures Progress(s.jobs[job], Recovered(s.jobs[job], now))
  {
    ClaimProgress(s, job, now, 0);
  }

  /** How often the job's row changed over the run. */
  ghost function Changes(s: State, run: seq<Event>, job: Id): nat
    decreases |run|
  {
    if run == [] then 0
    else
      var s' := Next(s, run[0]);
      (if job in s.jobs && job in s'.jobs && s'.jobs[job] != s.jobs[job] then 1 else 0) + Changes(s', run[1..], job)
  }

  lemma NeverReborn(s: State, e: Event, job: Id)
    requires Inv(s) && Fair(s, e) && job in s.claims
    ensures job in Next(s, e).claims
    ensures job !in s.jobs ==> job !in Next(s, e).jobs
  {
    hide Inv, AddDrafts, ValidContent, ValidGenerated, NewIds, WithoutDrafts, SavedDrafts, Claimed, Recovered,
         FailedJob, SucceededJob, Retried, Job.RowOk, Session.MayEnd, Session.MayUpdate, EndAttempt;
    if e.EEndAttempt? {
      EndsOwnJob(s, e, job);
    }
  }

  lemma EndsOwnJob(s: State, e: Event, job: Id)
    requires e.EEndAttempt?
    ensures Next(s, e).claims == s.claims
    ensures job !in s.jobs ==> job !in Next(s, e).jobs
  {
    hide AddDrafts, ValidGenerated, FailedJob, SucceededJob, Job.RowOk, Session.MayUpdate;
    if Holds(s, e.worker) {
      assert s.workers[e.worker].job in s.jobs;
    }
  }

  lemma {:induction false} ChangesBounded(s: State, run: seq<Event>, job: Id)
    requires Inv(s) && FairRun(s, run) && job in s.claims
    ensures Changes(s, run, job) <= if job in s.jobs then 9 - s.jobs[job].revision else 0
    decreases |run|
  {
    if job in s.jobs {
      assert JobOk(job, s.jobs[job], s.claims);
    }
    hide Inv, Next, Fair, Progress, JobOk, Bounded;
    if run != [] {
      var s' := Next(s, run[0]);
      StepKeeps(s, run[0]);
      NeverReborn(s, run[0], job);
      ChangesBounded(s', run[1..], job);
      if job in s.jobs && job in s'.jobs && s'.jobs[job] != s.jobs[job] {
        StepProgress(s, run[0], job);
        RaisesRevision(s.jobs[job], s'.jobs[job]);
      }
    }
  }

  lemma RaisesRevision(a: Job, b: Job)
    requires Progress(a, b)
    ensures b.revision == a.revision + 1
  {
  }

  /** A new job's row changes at most eight times, whatever workers, restarts and retries do. */
  lemma AtMostEightChanges(s: State, session: Id, job: Id, now: Time, run: seq<Event>)
    requires Inv(s) && Fair(s, ECompleteBatch(session, job, now)) && CompleteBatch(s, session, job, now) != s
    requires FairRun(CompleteBatch(s, session, job, now), run)
    ensures Changes(CompleteBatch(s, session, job, now), run, job) <= 8
  {
    CompleteBatchKeeps(s, session, job, now);
    ChangesBounded(CompleteBatch(s, session, job, now), run, job);
  }

  // ----------------------------------------------------------------------- what each step comes to

  /** The clock is behind none of the session's drafts. */
  ghost predicate DraftsInTime(s: State, session: Id, now: Time) {
    forall d :: d in s.drafts && s.drafts[d].session == session ==> s.drafts[d].createdAt <= Micro(now)
  }

  /** A completed batch queues one job, with all three attempts left, exactly if its session is to get a guide and
      has no job yet. */
  lemma BatchQueuesOneJob(s: State, session: Id, job: Id, now: Time)
    requires Inv(s) && job !in s.claims
    ensures var s' := CompleteBatch(s, session, job, now);
            if session in s.sessions && s.sessions[session].status == GeneratingGuide && s.sessions[session].job.None?
               && s.sessions[session].createdAt <= Micro(now)
            then
              && job !in s.jobs && job in s'.jobs && s'.jobs - {job} == s.jobs
              && s'.jobs[job].session == session && s'.jobs[job].status == Queued && s'.jobs[job].attempt == 0
              && s'.jobs[job].revision == 1
              && s'.sessions == s.sessions[session := s.sessions[session].(job := Some(job))] && s'.drafts == s.drafts
            else s' == s
  {
    assert job !in s.jobs by {
      assert forall j :: j in s.jobs ==> JobOk(j, s.jobs[j], s.claims);
    }
    hide Inv;
  }

  /** An edit is accepted exactly for a draft under review at the expected revision and with valid content, and
      changes that draft's content only. */
  lemma EditsOneDraft(
      s: State, draft: Id, title: string, steps: seq<GuideStep>, allowed: set<Id>, expected: int, now: Time)
    ensures var s' := EditDraft(s, draft, title, steps, allowed, expected, now);
            if draft in s.drafts && s.drafts[draft].status == Editing && s.drafts[draft].revision == expected
               && s.drafts[draft].session in s.sessions && s.sessions[s.drafts[draft].session].status == ReviewingGuide
               && ValidContent(title, steps, allowed) && s.drafts[draft].createdAt <= Micro(now)
            then
              && s' == s.(drafts := s'.drafts) && draft in s'.drafts && s'.drafts - {draft} == s.drafts - {draft}
              && s'.drafts[draft] == s.drafts[draft].(title := title, steps := steps, revision := expected + 1)
            else s' == s
  {
    hide ValidContent;
  }

  /** Giving a guide up leaves a session that has ended, without job and without drafts, and everybody else's rows
      as they were; it is refused while a job is still at work. */
  lemma GivingUpCleansUp(s: State, session: Id, now: Time)
    requires Inv(s) && session in s.sessions
    ensures var s' := EndWithoutGuide(s, session, now); var n := s.sessions[session];
            if n.status != Ended && n.createdAt <= Micro(now) && n.startedAt <= Micro(now)
               && (n.status == GeneratingGuide && n.job.Some? ==> s.jobs[n.job.value].status == Failed)
            then
              && session in s'.sessions && s'.sessions[session].status == Ended && s'.sessions[session].job.None?
              && (forall j :: j in s'.jobs <==> j in s.jobs && s.jobs[j].session != session)
              && (forall d :: d in s'.drafts <==> d in s.drafts && s.drafts[d].session != session)
              && (forall j :: j in s'.jobs ==> s'.jobs[j] == s.jobs[j])
              && (forall d :: d in s'.drafts ==> s'.drafts[d] == s.drafts[d])
              && s'.sessions - {session} == s.sessions - {session}
            else s' == s
  {
    assert CoupledOk(s.jobs, s.sessions) && DraftsOk(s.jobs, s.sessions, s.drafts, s.successes);
    hide Inv;
  }

  /** Completing a review saves every draft of the session as it was edited, and deletes the job. */
  lemma ReviewSavesAll(s: State, session: Id, now: Time)
    requires Inv(s) && session in s.sessions
    ensures var s' := CompleteReview(s, session, now); var n := s.sessions[session];
            if n.status == ReviewingGuide && n.createdAt <= Micro(now) && n.startedAt <= Micro(now)
               && DraftsInTime(s, session, now)
            then
              && session in s'.sessions && s'.sessions[session].status == Ended
              && (forall j :: j in s'.jobs <==> j in s.jobs && s.jobs[j].session != session)
              && s'.drafts.Keys == s.drafts.Keys
              && (forall d :: d in s.drafts && s.drafts[d].session == session ==>
                    s'.drafts[d] == s.drafts[d].(status := Saved, revision := s.drafts[d].revision + 1))
              && (forall d :: d in s.drafts && s.drafts[d].session != session ==> s'.drafts[d] == s.drafts[d])
              && s'.sessions - {session} == s.sessions - {session}
            else s' == s
  {
    assert CoupledOk(s.jobs, s.sessions);
    SavedOnes(s.drafts, session);
    hide Inv, SavedDrafts;
  }

  lemma SavedOnes(drafts: map<Id, Draft>, session: Id)
    ensures SavedDrafts(drafts, session).Keys == drafts.Keys
    ensures forall d :: d in drafts && drafts[d].session == session ==>
              SavedDrafts(drafts, session)[d] == drafts[d].(status := Saved, revision := drafts[d].revision + 1)
    ensures forall d :: d in drafts && drafts[d].session != session ==> SavedDrafts(drafts, session)[d] == drafts[d]
  {
  }

  // ------------------------------------------------------------------------- what drafts contain

  /** A title of up to forty characters and one to eight steps, numbered from one, each with an instruction of up to
      120 characters. */
  predicate WellFormed(d: Draft) {
    && !Entities.Blank(d.title) && 1 <= |d.title| <= 40
    && 1 <= |d.steps| <= 8
    && forall i :: 0 <= i < |d.steps| ==>
         && d.steps[i].position == i + 1
         && !Entities.Blank(d.steps[i].instruction) && 1 <= |d.steps[i].instruction| <= 120
  }

  ghost predicate AllWellFormed(drafts: map<Id, Draft>) { forall d :: d in drafts ==> WellFormed(drafts[d]) }

  lemma ValidIsWellFormed(d: Draft, allowed: set<Id>)
    requires ValidContent(d.title, d.steps, allowed)
    ensures WellFormed(d)
  {
    hide Entities.Blank;
    forall i | 0 <= i < |d.steps|
      ensures d.steps[i].position == i + 1 && !Entities.Blank(d.steps[i].instruction)
              && 1 <= |d.steps[i].instruction| <= 120
    {
      assert ValidStep(d.steps[i], i, allowed);
    }
  }

  lemma {:induction false} AddedWellFormed(
      drafts: map<Id, Draft>, session: Id, outputs: seq<GeneratedGuide>, ids: seq<Id>, now: Time, allowed: set<Id>)
    requires AllWellFormed(drafts) && |ids| == |outputs|
    requires forall i :: 0 <= i < |outputs| ==> ValidContent(outputs[i].title, Numbered(outputs[i].steps), allowed)
    ensures AllWellFormed(AddDrafts(drafts, session, outputs, ids, now))
    decreases |outputs|
  {
    if outputs != [] {
      var n := |outputs| - 1;
      hide ValidContent, WellFormed;
      AddedWellFormed(drafts, session, outputs[..n], ids[..n], now, allowed);
      ValidIsWellFormed(DraftOf(session, outputs[n], n + 1, now), allowed);
    }
  }

  lemma EndWellFormed(s: State, worker: Id, answer: Answer, allowed: set<Id>, ids: seq<Id>, now: Time)
    requires AllWellFormed(s.drafts)
    ensures AllWellFormed(EndAttempt(s, worker, answer, allowed, ids, now).drafts)
  {
    hide AddDrafts, ValidContent, WellFormed, Numbered, Job.RowOk, SucceededJob, FailedJob;
    if answer.Generated? && ValidGenerated(answer.outputs, allowed) && |ids| == |answer.outputs| && Holds(s, worker) {
      AddedWellFormed(s.drafts, s.jobs[s.workers[worker].job].session, answer.outputs, ids, now, allowed);
    }
  }

  lemma StepWellFormed(s: State, e: Event)
    requires AllWellFormed(s.drafts)
    ensures AllWellFormed(Next(s, e).drafts)
  {
    if e.EEndAttempt? {
      EndWellFormed(s, e.worker, e.answer, e.allowed, e.ids, e.now);
    }
    if e.EEditDraft? && ValidContent(e.title, e.steps, e.allowed) && e.draft in s.drafts {
      ValidIsWellFormed(s.drafts[e.draft].(title := e.title, steps := e.steps), e.allowed);
    }
    if e.ECompleteReview? {
      SavedOnes(s.drafts, e.session);
    }
    hide EndAttempt, ValidContent, Job.RowOk, Entities.Blank, Claimed, Retried, AllRecovered, SavedDrafts;
  }

  /** Whatever the generator answers and however drafts are edited: no draft is ever stored that is not well formed. */
  lemma {:induction false} DraftsAreWellFormed(s: State, run: seq<Event>)
    requires AllWellFormed(s.drafts)
    ensures AllWellFormed(Run(s, run).drafts)
    decreases |run|
  {
    hide Next, AllWellFormed;
    if run != [] {
      StepWellFormed(s, run[0]);
      DraftsAreWellFormed(Next(s, run[0]), run[1..]);
    }
  }

  // ---------------------------------------------------------------------- the bounds are reached

  /** An attempt at a queued job that fails and is retried. */
  function FailedRound(worker: Id, job: Id, revision: int, code: ErrorCode, now: Time): seq<Event> {
    [EClaim(worker, job, now), EEndAttempt(worker, NoAnswer(code), {}, [], now), ERetry(job, revision + 2, now)]
  }

  /** The job waits for a worker that it may still have. */
  predicate Waits(s: State, job: Id, now: Time) {
    && job in s.jobs && job in s.claims && s.jobs[job].status == Queued && s.jobs[job].RowOk()
    && s.jobs[job].createdAt <= Micro(now) && s.jobs[job].session in s.sessions
    && s.sessions[s.jobs[job].session].status == GeneratingGuide && s.sessions[s.jobs[job].session].job == Some(job)
  }

  function AfterRound(j: Job, now: Time): Job {
    j.(attempt := j.attempt + 1, revision := j.revision + 3, updatedAt := Micro(now))
  }

  /** After it the job waits again, three revisions and one attempt on. */
  lemma FailsAndIsRetried(s: State, worker: Id, job: Id, code: ErrorCode, now: Time)
    requires Waits(s, job, now) && worker !in s.workers && s.jobs[job].attempt <= 1
    ensures var run := FailedRound(worker, job, s.jobs[job].revision, code, now);
            var s' := s.(jobs := s.jobs[job := AfterRound(s.jobs[job], now)], claims := s.claims[job := s.claims[job] + 1]);
            FairRun(s, run) && Run(s, run) == s' && Waits(s', job, now)
  {
    hide Run, FairRun, FailedRound, Claimed, FailedJob, Retried, Job.RowOk, Next;
    var j := s.jobs[job];
    var failed := FailedJob(Claimed(j, now), code, now);
    var s2 := s.(jobs := s.jobs[job := failed], claims := s.claims[job := s.claims[job] + 1]);
    RoundRuns(s, worker, job, j.revision, code, now);
    ClaimedThenFailed(j, code, now);
    ClaimFails(s, worker, job, code, now);
    RetryQueues(s2, job, now);
  }

  lemma RoundRuns(s: State, worker: Id, job: Id, revision: int, code: ErrorCode, now: Time)
    requires worker !in s.workers
    ensures var run := FailedRound(worker, job, revision, code, now);
            && FairRun(s, run)
            && Run(s, run) == Next(Next(Next(s, EClaim(worker, job, now)), EEndAttempt(worker, NoAnswer(code), {}, [], now)),
                                   ERetry(job, revision + 2, now))
  {
    hide Next, Run, FairRun;
    ThreeSteps(s, EClaim(worker, job, now), EEndAttempt(worker, NoAnswer(code), {}, [], now), ERetry(job, revision + 2, now));
  }

  lemma ClaimFails(s: State, worker: Id, job: Id, code: ErrorCode, now: Time)
    requires job in s.jobs && worker !in s.workers && job in s.claims && s.jobs[job].status == Queued
    requires Claimed(s.jobs[job], now).RowOk() && FailedJob(Claimed(s.jobs[job], now), code, now).RowOk()
    ensures Next(Next(s, EClaim(worker, job, now)), EEndAttempt(worker, NoAnswer(code), {}, [], now))
            == s.(jobs := s.jobs[job := FailedJob(Claimed(s.jobs[job], now), code, now)],
                  claims := s.claims[job := s.claims[job] + 1])
  {
    var w := Worker(job, Claimed(s.jobs[job], now).revision);
    assert s.workers[worker := w] - {worker} == s.workers;
    assert s.jobs[job := Claimed(s.jobs[job], now)][job := FailedJob(Claimed(s.jobs[job], now), code, now)]
        == s.jobs[job := FailedJob(Claimed(s.jobs[job], now), code, now)];
    hide FailedJob, Job.RowOk;
  }

  lemma RetryQueues(s: State, job: Id, now: Time)
    requires job in s.jobs && s.jobs[job].session in s.sessions && s.jobs[job].status == Failed
    requires s.jobs[job].attempt < 3 && Retried(s.jobs[job], now).RowOk()
    requires s.sessions[s.jobs[job].session].status == GeneratingGuide
             && s.sessions[s.jobs[job].session].job == Some(job)
    ensures Next(s, ERetry(job, s.jobs[job].revision, now)) == s.(jobs := s.jobs[job := Retried(s.jobs[job], now)])
  {
  }

  lemma ClaimedThenFailed(j: Job, code: ErrorCode, now: Time)
    requires j.status == Queued && j.RowOk() && j.attempt <= 1 && j.createdAt <= Micro(now)
    ensures var claimed, failed := Claimed(j, now), FailedJob(Claimed(j, now), code, now);
            && claimed.status == Running && claimed.revision == j.revision + 1 && claimed.RowOk()
            && failed.status == Failed && failed.revision == j.revision + 2 && failed.attempt <= 2 && failed.RowOk()
            && failed.session == claimed.session == j.session
            && Retried(failed, now) == j.(attempt := j.attempt + 1, revision := j.revision + 3, updatedAt := Micro(now))
            && Retried(failed, now).RowOk()
  {
  }

  lemma ThreeSteps(s: State, a: Event, b: Event, c: Event)
    ensures Run(s, [a, b, c]) == Next(Next(Next(s, a), b), c)
    ensures FairRun(s, [a, b, c]) <==> Fair(s, a) && Fair(Next(s, a), b) && Fair(Next(Next(s, a), b), c)
  {
    hide Next, Fair;
    var s1 := Next(s, a);
    var s2 := Next(s1, b);
    assert [a, b, c][1..] == [b, c] && [b, c][1..] == [c] && [c][1..] == [];
    assert Run(s2, [c]) == Run(Next(s2, c), []) && Run(s1, [b, c]) == Run(s2, [c]) && Run(s, [a, b, c]) == Run(s1, [b, c]);
    assert FairRun(Next(s2, c), []) && (FairRun(s2, [c]) <==> Fair(s2, c));
    assert FairRun(s1, [b, c]) <==> Fair(s1, b) && FairRun(s2, [c]);
  }

  lemma {:induction false} RunConcat(s: State, a: seq<Event>, b: seq<Event>)
    ensures Run(s, a + b) == Run(Run(s, a), b)
    ensures FairRun(s, a) && FairRun(Run(s, a), b) ==> FairRun(s, a + b)
    decreases |a|
  {
    hide Next, Fair;
    if a == [] {
      assert a + b == b;
    } else {
      RunConcat(Next(s, a[0]), a[1..], b);
      assert (a + b)[1..] == a[1..] + b && (a + b)[0] == a[0];
    }
  }

  /** The state of a new session whose batch is complete. */
  function OneJob(session: Id, job: Id, j: Job, claims: nat, now: Time): State {
    State(map[job := j], map[session := Session(GeneratingGuide, Some(job), None, now, now)], map[], map[],
          map[job := claims], [])
  }

  lemma OneJobBegins(session: Id, job: Id, now: Time)
    ensures var run := [EOpenSession(session, Micro(now), Micro(now)), ECompleteBatch(session, job, now)];
            var s := OneJob(session, job, NewJob(session, now), 0, Micro(now));
            FairRun(EMPTY, run) && Run(EMPTY, run) == s && Waits(s, job, now)
  {
    var open, batch := EOpenSession(session, Micro(now), Micro(now)), ECompleteBatch(session, job, now);
    var s1 := Next(EMPTY, open);
    assert [open, batch][1..] == [batch] && [batch][1..] == [];
    assert Run(s1, [batch]) == Run(Next(s1, batch), []) && FairRun(Next(s1, batch), []);
    assert FairRun(s1, [batch]) <==> Fair(s1, batch);
  }

  /** The bounds are reached: a new job that fails twice and is retried twice is claimed a third time, at revision
      eight; and when its third attempt fails, no retry is accepted any more. */
  lemma ThirdAttemptIsReached(
      session: Id, job: Id, first: Id, second: Id, third: Id, code: ErrorCode, expected: int, now: Time)
    ensures var begin := [EOpenSession(session, Micro(now), Micro(now)), ECompleteBatch(session, job, now)];
            var run := begin + FailedRound(first, job, 1, code, now) + FailedRound(second, job, 4, code, now)
                       + [EClaim(third, job, now)];
            var s := Run(EMPTY, run);
            && FairRun(EMPTY, run) && s.claims == map[job := 3] && job in s.jobs && s.jobs[job].attempt == 3
            && s.jobs[job].revision == 8 && Holds(s, third)
            && var failed := EndAttempt(s, third, NoAnswer(code), {}, [], now);
               && job in failed.jobs && failed.jobs[job].status == Failed && failed.jobs[job].revision == 9
               && Retry(failed, job, expected, now) == failed
  {
    var begin := [EOpenSession(session, Micro(now), Micro(now)), ECompleteBatch(session, job, now)];
    var round1, round2 := FailedRound(first, job, 1, code, now), FailedRound(second, job, 4, code, now);
    var j := NewJob(session, now);
    hide Run, FairRun, FailedRound, Next, Waits, Retry, EndAttempt, AfterRound, NewJob, OneJob;
    OneJobBegins(session, job, now);
    NewJobRounds(session, now);
    OneRound(session, job, j, 0, first, code, now);
    RunConcat(EMPTY, begin, round1);
    OneRound(session, job, AfterRound(j, now), 1, second, code, now);
    RunConcat(EMPTY, begin + round1, round2);
    OneJobRows(session, job, AfterRound(AfterRound(j, now), now), 2, now);
    LastClaim(OneJob(session, job, AfterRound(AfterRound(j, now), now), 2, Micro(now)), job, third, code, expected, now);
    RunConcat(EMPTY, begin + round1 + round2, [EClaim(third, job, now)]);
  }

  lemma NewJobRounds(session: Id, now: Time)
    ensures var j := NewJob(session, now);
            && j.attempt == 0 && j.revision == 1 && j.session == session
            && AfterRound(j, now).attempt == 1 && AfterRound(j, now).revision == 4
            && AfterRound(AfterRound(j, now), now).attempt == 2 && AfterRound(AfterRound(j, now), now).revision == 7
  {
  }

  lemma OneJobRows(session: Id, job: Id, j: Job, claims: nat, now: Time)
    ensures var s := OneJob(session, job, j, claims, Micro(now));
            s.jobs == map[job := j] && s.claims == map[job := claims] && s.workers == map[]
  {
  }

  lemma OneRound(session: Id, job: Id, j: Job, claims: nat, worker: Id, code: ErrorCode, now: Time)
    requires Waits(OneJob(session, job, j, claims, Micro(now)), job, now) && j.attempt <= 1
    ensures var run := FailedRound(worker, job, j.revision, code, now); var s := OneJob(session, job, j, claims, Micro(now));
            var s' := OneJob(session, job, AfterRound(j, now), claims + 1, Micro(now));
            FairRun(s, run) && Run(s, run) == s' && Waits(s', job, now)
  {
    var s := OneJob(session, job, j, claims, Micro(now));
    FailsAndIsRetried(s, worker, job, code, now);
    assert s.jobs[job := AfterRound(j, now)] == map[job := AfterRound(j, now)];
    assert s.claims[job := claims + 1] == map[job := claims + 1];
    hide Run, FairRun, FailedRound, Next, Waits;
  }

  lemma LastClaim(s: State, job: Id, worker: Id, code: ErrorCode, expected: int, now: Time)
    requires Waits(s, job, now) && worker !in s.workers && s.jobs[job].attempt == 2
    ensures var run := [EClaim(worker, job, now)]; var s' := Run(s, run);
            && FairRun(s, run) && s'.claims == s.claims[job := s.claims[job] + 1]
            && job in s'.jobs && s'.jobs[job].attempt == 3 && s'.jobs[job].revision == s.jobs[job].revision + 1
            && Holds(s', worker)
            && var failed := EndAttempt(s', worker, NoAnswer(code), {}, [], now);
               && job in failed.jobs && failed.jobs[job].status == Failed
               && failed.jobs[job].revision == s.jobs[job].revision + 2
               && Retry(failed, job, expected, now) == failed
  {
    var e := EClaim(worker, job, now);
    assert [e][1..] == [] && Run(s, [e]) == Run(Next(s, e), []) && FairRun(Next(s, e), []);
  }
}
