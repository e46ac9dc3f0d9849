/** Loading the generator's images: which ones, in which order, and by up to four workers at once, each taking
    every fourth slot, any of which may cancel the rest. */
module StripedLoad {
  import opened Common
  import opened MaterialSampling

  const CONCURRENCY := 4

  type Bytes = seq<bv8>

  // ------------------------------------------------------------------------------- what to load

  datatype Material = Material(artifact: Id, key: string)

  lemma SampleInRange(total: int, indexes: seq<int>)
    requires EvenSample(total, indexes)
    ensures |indexes| <= MAX_MATERIALS && forall i :: 0 <= i < |indexes| ==> 0 <= indexes[i] < total
  {
  }

  /** The screenshot first, then the sampled materials in their order: between one and thirty-one keys. */
  method CollectKeys(screenshot: string, materials: seq<Material>) returns (keys: seq<string>, ghost indexes: seq<int>)
    ensures EvenSample(|materials|, indexes)
    ensures 1 <= |keys| == 1 + |indexes| <= MAX_MATERIALS + 1
    ensures keys[0] == screenshot
    ensures forall p :: 1 <= p < |keys| ==> keys[p] == materials[indexes[p - 1]].key
  {
    var chosen := SelectGuideMaterialIndexes(|materials|);
    indexes := chosen;
    hide EvenSample;
    SampleInRange(|materials|, chosen);
    var all := new string[1 + |chosen|];
    all[0] := screenshot;
    for position := 0 to |chosen|
      invariant all[0] == screenshot
      invariant forall p :: 1 <= p <= position ==> all[p] == materials[chosen[p - 1]].key
    {
      all[position + 1] := materials[chosen[position]].key;
    }
    keys := all[..];
  }

  // ------------------------------------------------------------------------------------ loading

  /** A worker is about to look at its next slot, is loading one, or has left its loop. */
  datatype Worker = Ready(position: nat) | Loading(position: nat) | Stopped(position: nat)

  /** `cancelled`: the workers' context is cancelled; `aborted`: the caller's context is. */
  datatype State = State(
    keys: seq<string>, slots: seq<Option<Bytes>>, workers: seq<Worker>, firstError: Option<string>,
    cancelled: bool, aborted: bool)

  function Workers(count: nat): nat { if count < CONCURRENCY then count else CONCURRENCY }

  function Start(keys: seq<string>): State {
    State(keys, seq(|keys|, _ => None), seq(Workers(|keys|), i requires i >= 0 => Ready(i)), None, false, false)
  }

  function SetWorker(s: State, w: nat, worker: Worker): State
    requires w < |s.workers|
  {
    s.(workers := s.workers[w := worker])
  }

  /** The loop head: past the end the worker is done, and a cancelled context stops it. */
  function Look(s: State, w: nat): State {
    if w >= |s.workers| || !s.workers[w].Ready? then s else
    var p := s.workers[w].position;
    if p >= |s.keys| || s.cancelled then SetWorker(s, w, Stopped(p)) else SetWorker(s, w, Loading(p))
  }

  function Store(s: State, w: nat, prepared: Bytes): State {
    if w >= |s.workers| || !s.workers[w].Loading? || s.workers[w].position >= |s.slots| then s else
    var p := s.workers[w].position;
    SetWorker(s, w, Ready(p + CONCURRENCY)).(slots := s.slots[p := Some(prepared)])
  }

  /** Only the first error is kept; it cancels the others. */
  function Fail(s: State, w: nat, error: string): State {
    if w >= |s.workers| || !s.workers[w].Loading? then s
    else SetWorker(s, w, Stopped(s.workers[w].position)).(
           firstError := if s.firstError.None? then Some(error) else s.firstError, cancelled := true)
  }

  function Abort(s: State): State { s.(aborted := true, cancelled := true) }

  datatype Event = ELook(w: nat) | EStore(w: nat, prepared: Bytes) | EFail(w: nat, error: string) | EAbort

  function Next(s: State, e: Event): State {
    match e
    case ELook(w) => Look(s, w)
    case EStore(w, prepared) => Store(s, w, prepared)
    case EFail(w, error) => Fail(s, w, error)
    case EAbort => Abort(s)
  }

  /** A successful load of a slot's key gives that key's prepared bytes. */
  predicate Fair(content: string -> Bytes, s: State, e: Event) {
    e.EStore? && e.w < |s.workers| && s.workers[e.w].Loading? && s.workers[e.w].position < |s.keys| ==>
      e.prepared == content(s.keys[s.workers[e.w].position])
  }

  function Run(s: State, run: seq<Event>): State
    decreases |run|
  {
    if run == [] then s else Run(Next(s, run[0]), run[1..])
  }

  ghost predicate FairRun(content: string -> Bytes, s: State, run: seq<Event>)
    decreases |run|
  {
    run == [] || (Fair(content, s, run[0]) && FairRun(content, Next(s, run[0]), run[1..]))
  }

  predicate Finished(s: State) { forall w :: 0 <= w < |s.workers| ==> s.workers[w].Stopped? }

  /** What `loadInput` returns once every worker has stopped: nothing after an error or a cancelled caller. */
  predicate Succeeds(s: State) { Finished(s) && s.firstError.None? && !s.aborted }

  /** The worker that a slot belongs to. */
  function Owner(p: nat): nat { p % CONCURRENCY }

  predicate SlotOk(content: string -> Bytes, s: State, p: nat)
    requires p < |s.slots| == |s.keys| && Owner(p) < |s.workers|
  {
    s.slots[p] == if p < s.workers[Owner(p)].position then Some(content(s.keys[p])) else None
  }

  /** A slot is filled exactly when its own worker has passed it, and then with its own key's bytes. */
  ghost predicate Inv(content: string -> Bytes, s: State) {
    && |s.slots| == |s.keys| && |s.workers| == Workers(|s.keys|)
    && (forall w :: 0 <= w < |s.workers| ==> s.workers[w].position % CONCURRENCY == w)
    && (forall w :: 0 <= w < |s.workers| && s.workers[w].Loading? ==> s.workers[w].position < |s.keys|)
    && (forall p :: 0 <= p < |s.slots| ==> SlotOk(content, s, p))
    && (forall w :: 0 <= w < |s.workers| && s.workers[w].Stopped? ==> s.workers[w].position >= |s.keys| || s.cancelled)
    && (s.cancelled ==> s.firstError.Some? || s.aborted)
  }

  lemma StartInv(content: string -> Bytes, keys: seq<string>)
    ensures Inv(content, Start(keys))
  {
  }

  lemma StoreKeeps(content: string -> Bytes, s: State, w: nat, prepared: Bytes)
    requires Inv(content, s) && Fair(content, s, EStore(w, prepared))
    ensures Inv(content, Store(s, w, prepared))
  {
    var s' := Store(s, w, prepared);
    if s' != s {
      forall q | 0 <= q < |s'.slots| ensures SlotOk(content, s', q) {
        StoredSlot(content, s, w, prepared, q);
      }
      hide SlotOk;
    }
  }

  lemma StoredSlot(content: string -> Bytes, s: State, w: nat, prepared: Bytes, q: nat)
    requires Inv(content, s) && Fair(content, s, EStore(w, prepared)) && q < |s.slots|
    ensures SlotOk(content, Store(s, w, prepared), q)
  {
    assert SlotOk(content, s, q);
    if Store(s, w, prepared) != s && Owner(q) == w {
      var p := s.workers[w].position;
      assert q < p + CONCURRENCY <==> q <= p;
    }
    hide Inv;
  }

  lemma StepKeeps(content: string -> Bytes, s: State, e: Event)
    requires Inv(content, s) && Fair(content, s, e)
    ensures Inv(content, Next(s, e))
  {
    var s' := Next(s, e);
    if e.EStore? {
      StoreKeeps(content, s, e.w, e.prepared);
    } else {
      forall q | 0 <= q < |s'.slots| ensures SlotOk(content, s', q) {
        assert SlotOk(content, s, q);
      }
    }
  }

  lemma {:induction false} RunKeeps(content: string -> Bytes, s: State, run: seq<Event>)
    requires Inv(content, s) && FairRun(content, s, run)
    ensures Inv(content, Run(s, run)) && Run(s, run).keys == s.keys
    decreases |run|
  {
    if run != [] {
      StepKeeps(content, s, run[0]);
      RunKeeps(content, Next(s, run[0]), run[1..]);
    }
  }

  /** However the workers interleave and whenever one cancels the others: a load without an error has every
      slot, in input order, filled with the prepared bytes of its own key. */
  lemma NoErrorNoGap(content: string -> Bytes, keys: seq<string>, run: seq<Event>)
    requires FairRun(content, Start(keys), run) && Succeeds(Run(Start(keys), run))
    ensures var s := Run(Start(keys), run);
            |s.slots| == |keys| && forall p :: 0 <= p < |keys| ==> s.slots[p] == Some(content(keys[p]))
  {
    StartInv(content, keys);
    RunKeeps(content, Start(keys), run);
    var s := Run(Start(keys), run);
    forall p | 0 <= p < |keys| ensures s.slots[p] == Some(content(keys[p])) {
      assert SlotOk(content, s, p);
      assert s.workers[Owner(p)].Stopped?;
    }
  }

  /** A worker that was loading reports an error. */
  predicate Fails(s: State, e: Event) { e.EFail? && e.w < |s.workers| && s.workers[e.w].Loading? }

  /** Some worker reports an error, or the caller gives up. */
  ghost predicate Troubled(s: State, run: seq<Event>)
    decreases |run|
  {
    run != [] && (Fails(s, run[0]) || run[0].EAbort? || Troubled(Next(s, run[0]), run[1..]))
  }

  /** The first error that a worker reports. */
  ghost function FirstError(s: State, run: seq<Event>): Option<string>
    decreases |run|
  {
    if run == [] then None
    else if Fails(s, run[0]) then Some(run[0].error) else FirstError(Next(s, run[0]), run[1..])
  }

  lemma {:induction false} KeepsFirstError(s: State, run: seq<Event>)
    ensures Run(s, run).firstError == (if s.firstError.Some? then s.firstError else FirstError(s, run))
    ensures Run(s, run).firstError.Some? || Run(s, run).aborted <==> s.firstError.Some? || s.aborted || Troubled(s, run)
    decreases |run|
  {
    if run != [] {
      KeepsFirstError(Next(s, run[0]), run[1..]);
    }
  }

  /** Once all workers have stopped, the load succeeds exactly if none of them reported an error and the caller did
      not give up; else it reports the first error, whatever came after it. */
  lemma SucceedsExactly(keys: seq<string>, run: seq<Event>)
    requires Finished(Run(Start(keys), run))
    ensures Succeeds(Run(Start(keys), run)) <==> !Troubled(Start(keys), run)
    ensures Run(Start(keys), run).firstError == FirstError(Start(keys), run)
  {
    KeepsFirstError(Start(keys), run);
  }

  /** Two workers never write the same slot. */
  lemma DisjointWrites(content: string -> Bytes, keys: seq<string>, run: seq<Event>, v: nat, w: nat)
    requires FairRun(content, Start(keys), run)
    requires var s := Run(Start(keys), run);
             v < |s.workers| && w < |s.workers| && s.workers[v].Loading? && s.workers[w].Loading?
             && s.workers[v].position == s.workers[w].position
    ensures v == w
  {
    StartInv(content, keys);
    RunKeeps(content, Start(keys), run);
  }

  /** The first error and a caller who gives up cancel the load, and a cancelled load starts on no further slot. */
  lemma CancelledLoadsNoMore(s: State, e: Event, w: nat)
    requires w < |s.workers|
    ensures Fails(s, e) || e.EAbort? ==> Next(s, e).cancelled
    ensures s.cancelled ==> Next(s, e).cancelled
    ensures s.cancelled && Next(s, e).workers[w] != s.workers[w] ==> !Next(s, e).workers[w].Loading?
  {
  }

  /** Work left: three steps for each slot a worker has not passed, fewer in the middle of one. */
  function WorkLeft(s: State, w: nat): int
    requires w < |s.workers|
  {
    var left := if s.workers[w].position < |s.keys| then |s.keys| - s.workers[w].position else 0;
    match s.workers[w]
    case Ready(_) => 2 * left + 2
    case Loading(_) => 2 * left + 1
    case Stopped(_) => 0
  }

  /** Every step of a worker leaves it less to do, so all of them stop. */
  lemma WorkersStop(content: string -> Bytes, s: State, e: Event, w: nat)
    requires Inv(content, s) && w < |s.workers| && Next(s, e).workers[w] != s.workers[w]
    ensures 0 <= WorkLeft(Next(s, e), w) < WorkLeft(s, w)
  {
  }
}
