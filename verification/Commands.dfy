/** Commands that claim their key, do their work and store their answer in one transaction: creating and
    cancelling a support request, the calls on a session, and the guide commands. */
module Commands {
  import opened Common
  import opened Idempotency

  /** What the work of a command comes to: a change with its answer, a business error that is stored as the
      answer and changes nothing else, or any other error, which rolls the transaction back. */
  datatype Work<W, B> = Commit(world: W, status: int, body: B) | Business(status: int, body: B) | Abort

  datatype Reply<B> = Answered(status: int, body: B) | Rejected(verdict: Verdict) | Failed

  datatype Outcome<W, H, B> = Outcome(table: Table<H, B>, world: W, reply: Reply<B>)

  function Perform<W, H(==), B>(t: Table<H, B>, w: W, scope: Scope, hash: H, now: Time, work: W -> Work<W, B>)
    : Outcome<W, H, B>
  {
    var (claimed, claim) := Acquire(t, scope, hash, None, now);
    match claim
    case Refused(verdict) => Outcome(t, w, Rejected(verdict))
    case Claimed(record, Replay) =>
      if record.responseStatus.Some? && record.body.Some?
      then Outcome(t, w, Answered(record.responseStatus.value, record.body.value)) else Outcome(t, w, Failed)
    case Claimed(_, _) =>
      match work(w)
      case Commit(w', status, body) =>
        Outcome(Execute(claimed, Complete(scope, status, body, now)), w', Answered(status, body))
      case Business(status, body) =>
        Outcome(Execute(claimed, Complete(scope, status, body, now)), w, Answered(status, body))
      case Abort => Outcome(t, w, Failed)
  }

  /** A command of any caller, or a cleanup that meets an expired record. */
  datatype Step<!W, H, B> =
    | Command(scope: Scope, hash: H, now: Time, work: W -> Work<W, B>)
    | Cleanup(scope: Scope, now: Time)

  function Next<W, H(==), B>(t: Table<H, B>, w: W, step: Step<W, H, B>): Outcome<W, H, B> {
    match step
    case Command(scope, hash, now, work) => Perform(t, w, scope, hash, now, work)
    case Cleanup(scope, now) => Outcome(Execute(t, DeleteExpired(scope, now)), w, Failed)
  }

  function Run<W, H(==), B>(t: Table<H, B>, w: W, run: seq<Step<W, H, B>>): Outcome<W, H, B>
    decreases |run|
  {
    if |run| == 0 then Outcome(t, w, Failed)
    else var first := Next(t, w, run[0]); Run(first.table, first.world, run[1..])
  }

  /** Between transactions no command is ever left in progress. */
  ghost predicate Settled<H, B>(t: Table<H, B>) {
    ValidTable(t) && forall scope :: scope in t ==> t[scope].status == Completed
  }

  lemma StepSettles<W, H, B>(t: Table<H, B>, w: W, step: Step<W, H, B>)
    requires Settled(t)
    ensures Settled(Next(t, w, step).table)
  {
    match step
    case Command(scope, hash, now, work) =>
      AcquireOutcome(t, scope, hash, None, now);
      var (claimed, claim) := Acquire(t, scope, hash, None, now);
      if claim.Claimed? && claim.decision != Replay && !work(w).Abort? {
        StatementKeepsValid(claimed, Complete(scope, work(w).status, work(w).body, now));
      }
    case Cleanup(scope, now) => StatementKeepsValid(t, DeleteExpired(scope, now));
  }

  lemma {:induction false} RunSettles<W, H, B>(t: Table<H, B>, w: W, run: seq<Step<W, H, B>>)
    requires Settled(t)
    ensures Settled(Run(t, w, run).table)
    decreases |run|
  {
    if |run| > 0 {
      StepSettles(t, w, run[0]);
      var first := Next(t, w, run[0]);
      RunSettles(first.table, first.world, run[1..]);
    }
  }

  /** The stored answer of a key, while no cleanup a full retention later has met it. */
  ghost predicate Kept<W, H, B>(run: seq<Step<W, H, B>>, scope: Scope, expiresAt: Time) {
    forall i :: 0 <= i < |run| && run[i].Cleanup? && run[i].scope == scope ==> run[i].now < expiresAt
  }

  lemma StepKeepsAnswer<W, H, B>(t: Table<H, B>, w: W, step: Step<W, H, B>, scope: Scope)
    requires Settled(t) && scope in t
    requires step.Cleanup? && step.scope == scope ==> step.now < t[scope].expiresAt.value
    ensures scope in Next(t, w, step).table && Next(t, w, step).table[scope] == t[scope]
  {
    if step.Command? {
      AcquireOutcome(t, step.scope, step.hash, None, step.now);
    }
  }

  lemma {:induction false} RunKeepsAnswer<W, H, B>(t: Table<H, B>, w: W, run: seq<Step<W, H, B>>, scope: Scope)
    requires Settled(t) && scope in t && Kept(run, scope, t[scope].expiresAt.value)
    ensures scope in Run(t, w, run).table && Run(t, w, run).table[scope] == t[scope]
    decreases |run|
  {
    if |run| > 0 {
      var first := Next(t, w, run[0]);
      StepSettles(t, w, run[0]);
      StepKeepsAnswer(t, w, run[0], scope);
      assert Kept(run[1..], scope, t[scope].expiresAt.value) by {
        forall i | 0 <= i < |run[1..]| && run[1..][i].Cleanup? && run[1..][i].scope == scope
          ensures run[1..][i].now < t[scope].expiresAt.value
        {
          assert run[1..][i] == run[i + 1];
        }
      }
      RunKeepsAnswer(first.table, first.world, run[1..], scope);
    }
  }

  lemma FirstAnswerIsStored<W, H, B>(
      t: Table<H, B>, w: W, scope: Scope, hash: H, now: Time, work: W -> Work<W, B>)
    requires Settled(t) && Perform(t, w, scope, hash, now, work).reply.Answered?
    ensures var o := Perform(t, w, scope, hash, now, work);
            && scope in o.table && o.table[scope].hash == hash
            && o.table[scope].responseStatus == Some(o.reply.status) && o.table[scope].body == Some(o.reply.body)
            && (scope !in t ==> o.table[scope].expiresAt == Some(Micro(now) + RETENTION))
  {
    AcquireOutcome(t, scope, hash, None, now);
  }

  /** Once a command has been answered, every repetition with the same key and request is given that very answer
      and changes nothing, and a different request under the key is refused, whatever other commands and
      cleanups run in between; only a cleanup a full day after the answer ends this. */
  lemma RepetitionIsHarmless<W, H, B>(
      t: Table<H, B>, w: W, scope: Scope, hash: H, now: Time, work: W -> Work<W, B>,
      between: seq<Step<W, H, B>>, otherHash: H, later: Time, otherWork: W -> Work<W, B>)
    requires Settled(t)
    requires var first := Perform(t, w, scope, hash, now, work);
             && first.reply.Answered? && scope in first.table && first.table[scope].expiresAt.Some?
             && Kept(between, scope, first.table[scope].expiresAt.value)
    ensures var first := Perform(t, w, scope, hash, now, work);
            var after := Run(first.table, first.world, between);
            Perform(after.table, after.world, scope, otherHash, later, otherWork)
            == Outcome(after.table, after.world, if otherHash == hash then first.reply else Rejected(KeyReused))
  {
    var first := Perform(t, w, scope, hash, now, work);
    FirstAnswerIsStored(t, w, scope, hash, now, work);
    StepSettles(t, w, Command(scope, hash, now, work));
    assert Settled(first.table);
    RunKeepsAnswer(first.table, first.world, between, scope);
    RunSettles(first.table, first.world, between);
    var after := Run(first.table, first.world, between);
    hide Run, Execute, Settled;
    Repeated(after.table, after.world, scope, otherHash, later, otherWork);
  }

  lemma Repeated<W, H, B>(t: Table<H, B>, w: W, scope: Scope, hash: H, now: Time, work: W -> Work<W, B>)
    requires Settled(t) && scope in t
    ensures t[scope].responseStatus.Some? && t[scope].body.Some?
    ensures Perform(t, w, scope, hash, now, work)
            == Outcome(t, w, if t[scope].hash == hash then Answered(t[scope].responseStatus.value, t[scope].body.value)
                             else Rejected(KeyReused))
  {
    AcquireOutcome(t, scope, hash, None, now);
  }

  // -------------------------------------------------------------------- what commands do to the world

  /** What a command does, to the world and to its caller: under a free key its work is done if it commits, and
      its answer, business errors included, is stored; an aborted one leaves nothing; under a stored key the
      world and the table stay as they were. */
  lemma PerformEffect<W, H, B>(t: Table<H, B>, w: W, scope: Scope, hash: H, now: Time, work: W -> Work<W, B>)
    requires Settled(t)
    ensures var o := Perform(t, w, scope, hash, now, work);
            if scope in t then
              o.table == t && o.world == w && (o.reply.Answered? <==> t[scope].hash == hash)
            else if work(w).Abort? then
              o.table == t && o.world == w && o.reply == Failed
            else
              && o.world == (if work(w).Commit? then work(w).world else w)
              && o.reply == Answered(work(w).status, work(w).body)
              && scope in o.table && o.table == t[scope := o.table[scope]]
              && o.table[scope].hash == hash && o.table[scope].status == Completed
              && o.table[scope].completedAt == Some(Micro(now))
  {
    AcquireOutcome(t, scope, hash, None, now);
    var (claimed, claim) := Acquire(t, scope, hash, None, now);
    if scope !in t {
      assert claimed == t[scope := claimed[scope]];
    }
  }

  /** The step's work is done: a command under a free key whose work commits. */
  ghost predicate Applies<W, H, B>(t: Table<H, B>, w: W, step: Step<W, H, B>) {
    step.Command? && step.scope !in t && step.work(w).Commit?
  }

  /** The works that a run does, in order. */
  ghost function Applied<W, H, B>(t: Table<H, B>, w: W, run: seq<Step<W, H, B>>): seq<W -> Work<W, B>>
    decreases |run|
  {
    if |run| == 0 then []
    else
      var first := Next(t, w, run[0]);
      (if Applies(t, w, run[0]) then [run[0].work] else []) + Applied(first.table, first.world, run[1..])
  }

  /** One work after the other, each on the world that the one before it left. */
  ghost function DoAll<W, B>(w: W, works: seq<W -> Work<W, B>>): W
    decreases |works|
  {
    if |works| == 0 then w
    else DoAll(if works[0](w).Commit? then works[0](w).world else w, works[1..])
  }

  lemma StepEffect<W, H, B>(t: Table<H, B>, w: W, step: Step<W, H, B>)
    requires Settled(t)
    ensures Next(t, w, step).world == if Applies(t, w, step) then step.work(w).world else w
    ensures Applies(t, w, step) ==>
              step.scope in Next(t, w, step).table
              && Next(t, w, step).table[step.scope].expiresAt == Some(Micro(step.now) + RETENTION)
  {
    if step.Command? {
      PerformEffect(t, w, step.scope, step.hash, step.now, step.work);
      StepSettles(t, w, step);
    }
  }

  /** Over any run of commands and cleanups the world is the initial one with the committed works of the free keys
      done in order, and nothing else. */
  lemma {:induction false} RunEffect<W, H, B>(t: Table<H, B>, w: W, run: seq<Step<W, H, B>>)
    requires Settled(t)
    ensures Run(t, w, run).world == DoAll(w, Applied(t, w, run))
    decreases |run|
  {
    if |run| > 0 {
      var first := Next(t, w, run[0]);
      StepSettles(t, w, run[0]);
      StepEffect(t, w, run[0]);
      RunEffect(first.table, first.world, run[1..]);
      var rest := Applied(first.table, first.world, run[1..]);
      if Applies(t, w, run[0]) {
        assert Applied(t, w, run)[0] == run[0].work && Applied(t, w, run)[1..] == rest;
      } else {
        assert Applied(t, w, run) == rest;
      }
    }
  }

  /** The work of step `i` is done in the state the run has reached by then. */
  ghost predicate AppliesAt<W, H, B>(t: Table<H, B>, w: W, run: seq<Step<W, H, B>>, i: nat)
    requires i < |run|
  {
    var before := Run(t, w, run[..i]);
    Applies(before.table, before.world, run[i])
  }

  lemma AppliesLater<W, H, B>(t: Table<H, B>, w: W, run: seq<Step<W, H, B>>, i: nat)
    requires 0 < i < |run|
    ensures var first := Next(t, w, run[0]);
            AppliesAt(t, w, run, i) == AppliesAt(first.table, first.world, run[1..], i - 1)
  {
    assert run[..i][1..] == run[1..][..i - 1] && run[..i][0] == run[0];
  }

  /** While a key's record is stored its work is not done again: first a cleanup must find it expired. */
  lemma {:induction false} StoredKeyIsDone<W, H, B>(t: Table<H, B>, w: W, run: seq<Step<W, H, B>>, scope: Scope, j: nat)
    requires Settled(t) && scope in t && j < |run| && run[j].Command? && run[j].scope == scope
    requires AppliesAt(t, w, run, j)
    ensures exists k :: 0 <= k < j && run[k].Cleanup? && run[k].scope == scope && run[k].now >= t[scope].expiresAt.value
    decreases |run|
  {
    if j > 0 {
      var first := Next(t, w, run[0]);
      StepSettles(t, w, run[0]);
      AppliesLater(t, w, run, j);
      if !(run[0].Cleanup? && run[0].scope == scope && run[0].now >= t[scope].expiresAt.value) {
        StepKeepsAnswer(t, w, run[0], scope);
        StoredKeyIsDone(first.table, first.world, run[1..], scope, j - 1);
        var k :| 0 <= k < j - 1 && run[1..][k].Cleanup? && run[1..][k].scope == scope
                 && run[1..][k].now >= t[scope].expiresAt.value;
        assert run[k + 1] == run[1..][k];
      }
    }
  }

  /** Under one key no two works are done within a day: between them a cleanup's clock has read at least a full day
      after the first. */
  lemma {:induction false} DoneOnce<W, H, B>(t: Table<H, B>, w: W, run: seq<Step<W, H, B>>, i: nat, j: nat)
    requires Settled(t) && i < j < |run| && run[i].Command? && run[j].Command? && run[i].scope == run[j].scope
    requires AppliesAt(t, w, run, i) && AppliesAt(t, w, run, j)
    ensures exists k :: i < k < j && run[k].Cleanup? && run[k].scope == run[i].scope && run[k].now >= Micro(run[i].now) + DAY
    decreases |run|
  {
    var first := Next(t, w, run[0]);
    var rest := run[1..];
    StepSettles(t, w, run[0]);
    AppliesLater(t, w, run, j);
    if i == 0 {
      assert run[..0] == [];
      StepEffect(t, w, run[0]);
      StoredKeyIsDone(first.table, first.world, rest, run[0].scope, j - 1);
      var k :| 0 <= k < j - 1 && rest[k].Cleanup? && rest[k].scope == run[0].scope && rest[k].now >= Micro(run[0].now) + DAY;
      assert run[k + 1] == rest[k];
    } else {
      AppliesLater(t, w, run, i);
      DoneOnce(first.table, first.world, rest, i - 1, j - 1);
      var k :| i - 1 < k < j - 1 && rest[k].Cleanup? && rest[k].scope == rest[i - 1].scope
               && rest[k].now >= Micro(rest[i - 1].now) + DAY;
      assert run[k + 1] == rest[k];
    }
  }
}
