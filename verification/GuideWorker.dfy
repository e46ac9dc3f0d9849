/** The worker's own form: methods that change jobs, sessions and drafts in place, each proved to take exactly
    the step that the invariant is proved about. */
module GuideWorker {
  import opened Common
  import opened Guides
  import opened GuideJobs

  class Store {
    var jobs: map<Id, Job>
    var sessions: map<Id, Session>
    var drafts: map<Id, Draft>
    var workers: map<Id, Worker>
    ghost var claims: map<Id, nat>
    ghost var successes: seq<(Id, seq<Id>)>

    ghost function View(): State
      reads this
    {
      State(jobs, sessions, drafts, workers, claims, successes)
    }

    constructor ()
      ensures View() == EMPTY
    {
      jobs, sessions, drafts, workers, claims, successes := map[], map[], map[], map[], map[], [];
    }

    method ClaimJob(worker: Id, job: Id, now: Time) returns (claimed: Option<Job>)
      modifies `jobs, `workers, `claims
      ensures View() == Claim(old(View()), worker, job, now)
      ensures claimed.Some? <==> job in old(jobs) && old(jobs)[job].status == Queued
                                 && Claimed(old(jobs)[job], now).RowOk()
      ensures job in old(jobs) && old(jobs)[job].RowOk() ==>
                (claimed.Some? <==> old(jobs)[job].status == Queued && old(jobs)[job].createdAt <= Micro(now))
      ensures claimed.Some? ==>
                && Holds(View(), worker)
                && claimed.value == old(jobs)[job].(
                     status := Running, attempt := old(jobs)[job].attempt + 1, revision := old(jobs)[job].revision + 1,
                     startedAt := Some(Micro(now)), finishedAt := None, error := None, updatedAt := Micro(now))
                && jobs == old(jobs)[job := claimed.value]
      ensures claimed.None? ==> View() == old(View())
    {
      if job !in jobs || jobs[job].status != Queued {
        return None;
      }
      var j := jobs[job];
      j := j.(status := Running, attempt := j.attempt + 1, revision := j.revision + 1, startedAt := Some(Micro(now)),
              finishedAt := None, error := None, updatedAt := Micro(now));
      if !j.RowOk() {
        return None;
      }
      jobs := jobs[job := j];
      workers := workers[worker := Worker(job, j.revision)];
      claims := claims[job := (if job in claims then claims[job] else 0) + 1];
      return Some(j);
    }

    /** What recovery makes of a row: a running job is queued again, or failed after its third attempt. */
    static method RecoverRow(row: Job, now: Time) returns (after: Job)
      ensures after == Recovered(row, now)
      ensures row.status != Running ==> after == row
      ensures row.status == Running && row.attempt < 3 ==> after == row.(
                status := Queued, startedAt := None, finishedAt := None, error := None, updatedAt := Micro(now),
                revision := row.revision + 1)
      ensures row.status == Running && row.attempt >= 3 ==> after == row.(
                status := Failed, finishedAt := Some(Micro(now)), error := Some(WorkerRestarted), updatedAt := Micro(now),
                revision := row.revision + 1)
    {
      after := row;
      if row.status == Running {
        if row.attempt < MAX_ATTEMPTS {
          after := after.(status := Queued, startedAt := None, finishedAt := None, error := None);
        } else {
          after := after.(status := Failed, finishedAt := Some(Micro(now)), error := Some(WorkerRestarted));
        }
        after := after.(updatedAt := Micro(now), revision := row.revision + 1);
      }
    }

    /** One row after the other, in any order; a row that fails its CHECK aborts the statement. */
    method RecoverJobs(now: Time) returns (ok: bool)
      modifies `jobs
      ensures View() == Recover(old(View()), now)
      ensures ok <==> forall j :: j in old(jobs) && old(jobs)[j].status == Running ==>
                        Recovered(old(jobs)[j], now).RowOk()
      ensures ok ==> forall j :: j in jobs ==> jobs[j].status != Running
      ensures !ok ==> jobs == old(jobs)
    {
      var rest, rows := jobs.Keys, jobs;
      ghost var before := jobs;
      while rest != {}
        invariant jobs == before && rest <= before.Keys == rows.Keys
        invariant forall j :: j in before ==> rows[j] == if j in rest then before[j] else Recovered(before[j], now)
        invariant forall j :: j in before && j !in rest && before[j].status == Running ==> Recovered(before[j], now).RowOk()
        decreases |rest|
      {
        var j :| j in rest;
        var row := RecoverRow(jobs[j], now);
        if jobs[j].status == Running && !row.RowOk() {
          return false;
        }
        rows := rows[j := row];
        rest := rest - {j};
      }
      jobs := rows;
      assert jobs == AllRecovered(before, now);
      return true;
    }

    method FailJob(worker: Id, code: ErrorCode, now: Time)
      requires worker in workers
      modifies `jobs, `workers
      ensures View() == FinishFailure(old(View()), worker, code, now)
      ensures workers == old(workers) - {worker}
      ensures var w := old(workers)[worker]; w.job in old(jobs) && old(jobs)[w.job].RowOk() ==>
                var j := old(jobs)[w.job];
                jobs == if j.status == Running && j.revision == w.revision && j.createdAt <= Micro(now)
                           && j.startedAt.value <= Micro(now)
                        then old(jobs)[w.job := j.(
                          status := Failed, error := Some(code), finishedAt := Some(Micro(now)), updatedAt := Micro(now),
                          revision := j.revision + 1)]
                        else old(jobs)
    {
      var w := workers[worker];
      workers := workers - {worker};
      if w.job in jobs && jobs[w.job].status == Running && jobs[w.job].revision == w.revision {
        var j := jobs[w.job];
        j := j.(status := Failed, draft := None, error := Some(code), finishedAt := Some(Micro(now)),
                updatedAt := Micro(now), revision := j.revision + 1);
        if j.RowOk() {
          jobs := jobs[w.job := j];
        }
      }
    }

    method SaveDrafts(worker: Id, outputs: seq<GeneratedGuide>, ids: seq<Id>, now: Time)
      requires worker in workers && |ids| == |outputs| && outputs != []
      modifies `jobs, `sessions, `drafts, `workers, `successes
      ensures View() == FinishSuccess(old(View()), worker, outputs, ids, now)
    {
      var w := workers[worker];
      workers := workers - {worker};
      if w.job !in jobs || jobs[w.job].status != Running || jobs[w.job].revision != w.revision
         || jobs[w.job].session !in sessions || sessions[jobs[w.job].session].status != GeneratingGuide {
        return;
      }
      var job := jobs[w.job];
      var before := drafts;
      for i := 0 to |outputs|
        invariant drafts == AddDrafts(old(drafts), job.session, outputs[..i], ids[..i], now)
        invariant jobs == old(jobs) && sessions == old(sessions) && workers == old(workers) - {worker}
        invariant claims == old(claims) && successes == old(successes)
      {
        var steps := NumberSteps(outputs[i].steps);
        drafts := drafts[ids[i] := Draft(job.session, i + 1, outputs[i].title, steps, Editing, Micro(now), 1)];
        AddLast(old(drafts), job.session, outputs, ids, now, i);
      }
      assert outputs[..|outputs|] == outputs && ids[..|ids|] == ids;
      job := job.(status := Succeeded, draft := Some(ids[0]), error := None, finishedAt := Some(Micro(now)),
                  updatedAt := Micro(now), revision := job.revision + 1);
      if !job.RowOk() || !sessions[job.session].MayUpdate(now) {
        drafts := before;  // the transaction rolls back
        return;
      }
      jobs := jobs[w.job := job];
      sessions := sessions[job.session := sessions[job.session].(status := ReviewingGuide, draft := Some(ids[0]))];
      successes := successes + [(w.job, ids)];
    }

    /** The end of one attempt: check what was generated, then save it or record the failure. */
    method FinishAttempt(worker: Id, answer: Answer, allowed: set<Id>, ids: seq<Id>, now: Time)
      requires worker in workers
      modifies this
      ensures View() == EndAttempt(old(View()), worker, answer, allowed, ids, now)
      ensures answer.Generated?
              && !(answer.outputs != [] && forall i :: 0 <= i < |answer.outputs| ==> Usable(answer.outputs[i], allowed)) ==>
                View() == FinishFailure(old(View()), worker, InvalidOutput, now)
      ensures answer.Generated? && |ids| == |answer.outputs| && answer.outputs != []
              && (forall i :: 0 <= i < |answer.outputs| ==> Usable(answer.outputs[i], allowed)) ==>
                View() == FinishSuccess(old(View()), worker, answer.outputs, ids, now)
    {
      match answer
      case NoAnswer(code) =>
        FailJob(worker, code, now);
      case Generated(outputs) =>
        var valid := ValidateGeneratedGuides(outputs, allowed);
        if valid && |ids| == |outputs| {
          SaveDrafts(worker, outputs, ids, now);
        } else {
          FailJob(worker, InvalidOutput, now);
        }
    }

    /** Queues a failed job again, as long as it has had fewer than three attempts. */
    method RetryJob(job: Id, expected: int, now: Time) returns (ok: bool)
      modifies `jobs
      ensures View() == Retry(old(View()), job, expected, now)
      ensures (job in old(jobs) ==> old(jobs)[job].RowOk()) ==> (ok <==>
                && job in old(jobs) && old(jobs)[job].status == Failed && old(jobs)[job].revision == expected
                && old(jobs)[job].attempt < 3 && old(jobs)[job].createdAt <= Micro(now)
                && old(jobs)[job].session in old(sessions)
                && old(sessions)[old(jobs)[job].session].status == GeneratingGuide
                && old(sessions)[old(jobs)[job].session].job == Some(job))
      ensures ok ==> jobs == old(jobs)[job := old(jobs)[job].(
                status := Queued, error := None, startedAt := None, finishedAt := None, updatedAt := Micro(now),
                revision := old(jobs)[job].revision + 1)]
      ensures !ok ==> jobs == old(jobs)
    {
      if job !in jobs || jobs[job].session !in sessions {
        return false;
      }
      var j, n := jobs[job], sessions[jobs[job].session];
      if j.revision != expected || j.status != Failed || j.attempt >= MAX_ATTEMPTS
         || n.status != GeneratingGuide || n.job != Some(job) {
        return false;
      }
      j := j.(status := Queued, error := None, startedAt := None, finishedAt := None, updatedAt := Micro(now),
              revision := j.revision + 1);
      if !j.RowOk() {
        return false;
      }
      jobs := jobs[job := j];
      return true;
    }
  }

  lemma AddLast(drafts: map<Id, Draft>, session: Id, outputs: seq<GeneratedGuide>, ids: seq<Id>, now: Time,
                i: nat)
    requires |ids| == |outputs| && i < |outputs|
    ensures AddDrafts(drafts, session, outputs[..i + 1], ids[..i + 1], now)
            == AddDrafts(drafts, session, outputs[..i], ids[..i], now)[ids[i] := DraftOf(session, outputs[i], i + 1, now)]
  {
    assert outputs[..i + 1][..i] == outputs[..i] && ids[..i + 1][..i] == ids[..i];
  }
}
