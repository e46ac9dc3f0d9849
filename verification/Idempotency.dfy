/** The idempotency records of every POST command: their validity, the decision taken on a repeated
    key and the SQL statements that write the table.

    A record carries the request's pre-image `H` where the server stores its SHA-256 digest (hashing
    is taken to be injective) and a response body `B`; an absent body stands for a nil or empty one.
    The key of a record is its scope; the method is always POST and is left out of it. */
module Idempotency {
  import opened Common

  const LEASE: Time := 2 * MINUTE
  const RETENTION: Time := DAY

  datatype Path = ArtifactUpload | MaterialUpload(batch: Id) | OtherPath(text: string)

  datatype Scope = Scope(actor: Id, path: Path, key: string)

  datatype Status = InProgress | Completed

  datatype Record<H, B> = Record(
    hash: H, status: Status, resource: Option<Id>, responseStatus: Option<int>, body: Option<B>,
    lease: Option<Time>, createdAt: Time, completedAt: Option<Time>, expiresAt: Option<Time>)
  {
    predicate Valid() {
      match status
      case InProgress =>
        lease.Some? && responseStatus.None? && completedAt.None? && expiresAt.None? && body.None?
      case Completed =>
        && lease.None? && responseStatus.Some? && body.Some? && completedAt.Some? && expiresAt.Some?
        && expiresAt.value == completedAt.value + RETENTION
    }

    /** Every instant of the row fits a microsecond column. */
    predicate Stored() {
      && createdAt % 1000 == 0
      && (lease.Some? ==> lease.value % 1000 == 0)
      && (completedAt.Some? ==> completedAt.value % 1000 == 0)
    }
  }

  type Table<H, B> = map<Scope, Record<H, B>>

  ghost predicate ValidTable<H, B>(t: Table<H, B>) {
    forall scope :: scope in t ==> t[scope].Valid() && t[scope].Stored()
  }

  // ---------------------------------------------------------------- decisions on a repeated key

  datatype Decision = Start | TakeOver | Replay

  datatype Verdict = Decide(decision: Decision) | KeyReused | RequestInProgress | CorruptRecord

  function Evaluate<H(==), B>(record: Option<Record<H, B>>, hash: H, now: Time): Verdict {
    if record.None? then Decide(Start)
    else if !record.value.Valid() then CorruptRecord
    else if record.value.hash != hash then KeyReused
    else if record.value.status == Completed then Decide(Replay)
    else if record.value.lease.Some? && record.value.lease.value > now then RequestInProgress
    else Decide(TakeOver)
  }

  function NewInProgress<H, B>(hash: H, resource: Option<Id>, now: Time): (r: Record<H, B>)
    ensures r.Valid()
    ensures forall later :: now <= later < now + 2 * MINUTE ==> Evaluate(Some(r), hash, later) == RequestInProgress
    ensures forall later :: now + 2 * MINUTE <= later ==> Evaluate(Some(r), hash, later) == Decide(TakeOver)
  {
    Record(hash, InProgress, resource, None, None, Some(now + LEASE), now, None, None)
  }

  /** The row a proposed record becomes once its instants are stored. */
  function ToRow<H, B>(r: Record<H, B>): Record<H, B> {
    r.(createdAt := Micro(r.createdAt),
       lease := if r.lease.Some? then Some(Micro(r.lease.value)) else None)
  }

  // ---------------------------------------------------------------------------- SQL statements

  predicate LeaseOver<H, B>(t: Table<H, B>, scope: Scope, now: Time) {
    && scope in t
    && t[scope].status == InProgress
    && t[scope].lease.Some?
    && t[scope].lease.value <= Micro(now)
  }

  predicate Expired<H, B>(r: Record<H, B>, now: Time) {
    || (r.status == Completed && r.expiresAt.Some? && r.expiresAt.value <= Micro(now))
    || (r.status == InProgress && r.createdAt <= Micro(now) - RETENTION)
  }

  datatype Statement<H, B> =
    | InsertIfAbsent(scope: Scope, hash: H, resource: Option<Id>, now: Time)
    | TakeOverLease(scope: Scope, resource: Option<Id>, now: Time)
    | ReleaseLease(scope: Scope, now: Time)
    | Complete(scope: Scope, responseStatus: int, body: B, now: Time)
    | DeleteExpired(scope: Scope, now: Time)

  /** The table after one statement; a statement whose guard fails changes no row. */
  function Execute<H, B>(t: Table<H, B>, statement: Statement<H, B>): Table<H, B> {
    match statement
    case InsertIfAbsent(scope, hash, resource, now) =>
      if scope in t then t else t[scope := ToRow(NewInProgress(hash, resource, now))]
    case TakeOverLease(scope, resource, now) =>
      if !LeaseOver(t, scope, now) then t
      else t[scope := t[scope].(
        lease := Some(Micro(now + LEASE)),
        resource := if t[scope].resource.Some? then t[scope].resource else resource)]
    case ReleaseLease(scope, now) =>
      if scope in t && t[scope].status == InProgress
      then t[scope := t[scope].(lease := Some(Micro(now)))] else t
    case Complete(scope, responseStatus, body, now) =>
      if scope in t && t[scope].status == InProgress
      then t[scope := t[scope].(
        status := Completed, responseStatus := Some(responseStatus), body := Some(body), lease := None,
        completedAt := Some(Micro(now)), expiresAt := Some(Micro(now) + RETENTION))]
      else t
    case DeleteExpired(scope, now) =>
      if scope in t && Expired(t[scope], now) then t - {scope} else t
  }

  function ExecuteAll<H, B>(t: Table<H, B>, run: seq<Statement<H, B>>): Table<H, B>
    decreases |run|
  {
    if run == [] then t else ExecuteAll(Execute(t, run[0]), run[1..])
  }

  /** The completion the domain computes for a record. */
  function CompleteRecord<H, B>(r: Record<H, B>, responseStatus: int, body: B, now: Time): Option<Record<H, B>> {
    if responseStatus < 100 || responseStatus > 599 then None
    else Some(r.(status := Completed, responseStatus := Some(responseStatus), body := Some(body), lease := None,
                 completedAt := Some(now), expiresAt := Some(now + RETENTION)))
  }

  /** The row that the UPDATE writes is the domain's completion at the clock's whole microsecond. With a clock
      reading between two microseconds the domain's own record differs from the row in its two instants, by less
      than a microsecond, and in nothing else. */
  lemma DomainCompletionIsTheRow<H, B>(t: Table<H, B>, scope: Scope, responseStatus: int, body: B, now: Time)
    requires scope in t && t[scope].status == InProgress
    ensures var domain := CompleteRecord(t[scope], responseStatus, body, now);
            var row := Execute(t, Complete(scope, responseStatus, body, now))[scope];
            && row.Valid()
            && (domain.Some? <==> 100 <= responseStatus <= 599)
            && (domain.Some? ==>
                  && domain.value.Valid()
                  && CompleteRecord(t[scope], responseStatus, body, Micro(now)) == Some(row)
                  && (domain.value == row <==> now == Micro(now))
                  && row == domain.value.(completedAt := row.completedAt, expiresAt := row.expiresAt)
                  && row.completedAt.value <= domain.value.completedAt.value < row.completedAt.value + 1000
                  && row.expiresAt.value <= domain.value.expiresAt.value < row.expiresAt.value + 1000)
  {
  }

  // --------------------------------------------------------------------------------- claiming

  datatype Claim<H, B> = Claimed(record: Record<H, B>, decision: Decision) | Refused(verdict: Verdict)

  /** Insert if absent, lock, evaluate, take over: the table and answer of one claim. */
  function Acquire<H(==), B>(t: Table<H, B>, scope: Scope, hash: H, resource: Option<Id>, now: Time)
    : (Table<H, B>, Claim<H, B>)
  {
    if scope !in t then
      var t' := Execute(t, InsertIfAbsent(scope, hash, resource, now));
      (t', Claimed(t'[scope], Start))
    else
      match Evaluate(Some(t[scope]), hash, now)
      case Decide(TakeOver) =>
        var t' := Execute(t, TakeOverLease(scope, resource, now));
        (t', if LeaseOver(t, scope, now) then Claimed(t'[scope], TakeOver) else Refused(RequestInProgress))
      case Decide(decision) => (t, Claimed(t[scope], decision))
      case verdict => (t, Refused(verdict))
  }

  // -------------------------------------------------------------------------------- properties

  lemma StatementKeepsValid<H, B>(t: Table<H, B>, statement: Statement<H, B>)
    requires ValidTable(t)
    ensures ValidTable(Execute(t, statement))
  {
    if statement.InsertIfAbsent? {
      var r: Record<H, B> := NewInProgress(statement.hash, statement.resource, statement.now);
      assert ToRow(r).Valid() && ToRow(r).Stored();
    }
  }

  /** Every stored record is valid after any run of statements, in any interleaving. */
  lemma {:induction false} RunKeepsValid<H, B>(t: Table<H, B>, run: seq<Statement<H, B>>)
    requires ValidTable(t)
    ensures ValidTable(ExecuteAll(t, run))
    decreases |run|
  {
    if run != [] {
      StatementKeepsValid(t, run[0]);
      RunKeepsValid(Execute(t, run[0]), run[1..]);
    }
  }

  /** A completed record never changes: after any run it is still there, byte for byte, unless a cleanup
      whose clock was at least a full retention past the completion deleted it. */
  lemma {:induction false} CompletedIsFrozen<H, B>(t: Table<H, B>, run: seq<Statement<H, B>>, scope: Scope)
    requires ValidTable(t) && scope in t && t[scope].status == Completed
    ensures var t' := ExecuteAll(t, run);
            || (scope in t' && t'[scope] == t[scope])
            || exists i :: 0 <= i < |run| && run[i].DeleteExpired? && run[i].scope == scope
                           && run[i].now >= t[scope].completedAt.value + RETENTION
    decreases |run|
  {
    if run != [] {
      var t1 := Execute(t, run[0]);
      StatementKeepsValid(t, run[0]);
      if scope in t1 && t1[scope] == t[scope] {
        CompletedIsFrozen(t1, run[1..], scope);
        if i :| 0 <= i < |run[1..]| && run[1..][i].DeleteExpired? && run[1..][i].scope == scope
                && run[1..][i].now >= t[scope].completedAt.value + RETENTION {
          assert run[i + 1] == run[1..][i];
        }
      } else {
        assert run[0].DeleteExpired? && run[0].scope == scope;
      }
    }
  }

  /** The decision taken on the record, with a nanosecond clock, is TakeOver exactly when the guarded
      UPDATE, with microsecond columns, will find its row. */
  lemma TakeOverMatchesSql<H, B>(t: Table<H, B>, scope: Scope, hash: H, now: Time)
    requires ValidTable(t) && scope in t
    ensures Evaluate(Some(t[scope]), hash, now) == Decide(TakeOver)
            <==> t[scope].hash == hash && LeaseOver(t, scope, now)
  {
    if t[scope].lease.Some? {
      StoredComparison(t[scope].lease.value, now);
    }
  }

  /** After a release the very next repetition takes the key over, without waiting for the lease; nothing else
      changes, and a record that is answered or gone is left alone. */
  lemma ReleasedIsFree<H, B>(t: Table<H, B>, scope: Scope, now: Time, later: Time)
    requires ValidTable(t) && now <= later
    ensures var t' := Execute(t, ReleaseLease(scope, now));
            && t' - {scope} == t - {scope}
            && (scope in t' <==> scope in t)
            && (scope in t && t[scope].status == Completed ==> t'[scope] == t[scope])
            && (scope in t && t[scope].status == InProgress ==>
                  && t'[scope] == t[scope].(lease := t'[scope].lease)
                  && Evaluate(Some(t'[scope]), t[scope].hash, later) == Decide(TakeOver)
                  && LeaseOver(t', scope, later))
  {
    StatementKeepsValid(t, ReleaseLease(scope, now));
    var t' := Execute(t, ReleaseLease(scope, now));
    if scope in t && t[scope].status == InProgress {
      TakeOverMatchesSql(t', scope, t[scope].hash, later);
      StoredComparison(Micro(now), later);
    }
  }

  /** A cleanup deletes a record exactly if a day has passed by its clock since the completion or, without one,
      since the creation. */
  lemma ExpiresAfterADay<H, B>(t: Table<H, B>, scope: Scope, now: Time)
    requires ValidTable(t) && scope in t
    ensures var t' := Execute(t, DeleteExpired(scope, now));
            && t' - {scope} == t - {scope}
            && (scope in t' ==> t'[scope] == t[scope])
            && (scope !in t' <==>
                  now - DAY >= if t[scope].status == Completed then t[scope].completedAt.value else t[scope].createdAt)
  {
  }

  /** What a claim answers, case by case. In particular it is refused as "in progress" only while a lease
      lies in the future: the branch after a takeover that finds no row cannot be reached. */
  lemma AcquireOutcome<H, B>(t: Table<H, B>, scope: Scope, hash: H, resource: Option<Id>, now: Time)
    requires ValidTable(t)
    ensures var (t', claim) := Acquire(t, scope, hash, resource, now);
            && ValidTable(t')
            && t' - {scope} == t - {scope}
            && (claim.Claimed? ==>
                  scope in t' && claim.record == t'[scope] && t'[scope].hash == hash)
            && (claim.Claimed? && claim.decision != Replay ==>
                  && t'[scope].status == InProgress
                  && t'[scope].lease == Some(Micro(now + LEASE))
                  && t'[scope].resource == (if scope in t && t[scope].resource.Some? then t[scope].resource else resource)
                  && t'[scope].createdAt == (if scope in t then t[scope].createdAt else Micro(now)))
            && (claim.Claimed? && claim.decision == Replay <==>
                  scope in t && t[scope].hash == hash && t[scope].status == Completed)
            && (claim == Refused(RequestInProgress) <==>
                  && scope in t && t[scope].hash == hash && t[scope].status == InProgress
                  && t[scope].lease.value > now)
            && (claim == Refused(KeyReused) <==> scope in t && t[scope].hash != hash)
            && claim != Refused(CorruptRecord)
            && (claim.Refused? || claim.decision == Replay ==> t' == t)
  {
    StatementKeepsValid(t, InsertIfAbsent(scope, hash, resource, now));
    StatementKeepsValid(t, TakeOverLease(scope, resource, now));
    if scope in t {
      TakeOverMatchesSql(t, scope, hash, now);
    }
  }
}
