/** The presence of a supported user: one row updated by each heartbeat, which must agree with the whole history
    of heartbeats, and the notifications reserved per request and connection. */
module Presence {
  import opened Common

  /** How long a silence ends a connection, how long a connection must last to count as online, and after
      which silence the user counts as offline. */
  datatype Config = Config(reconnectAfter: Time, onlineAfter: Time, offlineAfter: Time)

  datatype Row = Row(connectedSince: Time, lastSeenAt: Time, updatedAt: Time, epoch: int, revision: int)
  {
    predicate Valid() { connectedSince <= lastSeenAt <= updatedAt && epoch >= 1 && revision >= 1 }
  }

  datatype Status = Connecting | Online | Offline

  /** The row after one heartbeat. */
  function Beat(c: Config, stored: Option<Row>, now: Time): Row {
    if stored.None? then Row(Micro(now), Micro(now), Micro(now), 1, 1)
    else
      var r := stored.value;
      var again := now - r.lastSeenAt >= c.reconnectAfter;
      Row(if again then Micro(now) else r.connectedSince, Micro(now), Micro(now),
          if again then r.epoch + 1 else r.epoch, r.revision + 1)
  }

  function ComputedStatus(c: Config, stored: Option<Row>, now: Time): Status {
    if stored.None? || now - stored.value.lastSeenAt > c.offlineAfter then Offline
    else if now - stored.value.connectedSince < c.onlineAfter then Connecting
    else Online
  }

  // ------------------------------------------------------------------------------- the history

  /** Heartbeat `i` came after a silence that ends a connection. */
  predicate Gap(c: Config, beats: seq<Time>, i: int) {
    0 < i < |beats| && beats[i] - Micro(beats[i - 1]) >= c.reconnectAfter
  }

  ghost function Gaps(c: Config, beats: seq<Time>): nat {
    |set i | 0 < i < |beats| && Gap(c, beats, i)|
  }

  /** The connection that lasts until now began with heartbeat `start`. */
  ghost predicate StartsLastConnection(c: Config, beats: seq<Time>, start: nat) {
    && start < |beats|
    && (start > 0 ==> Gap(c, beats, start))
    && forall i :: start < i < |beats| ==> !Gap(c, beats, i)
  }

  ghost predicate Monotone(beats: seq<Time>) {
    forall i, j :: 0 <= i < j < |beats| ==> beats[i] <= beats[j]
  }

  function Replayed(c: Config, beats: seq<Time>): Option<Row>
    decreases |beats|
  {
    if beats == [] then None
    else Some(Beat(c, Replayed(c, beats[..|beats| - 1]), beats[|beats| - 1]))
  }

  lemma GapsGrow(c: Config, beats: seq<Time>)
    requires |beats| > 1
    ensures Gaps(c, beats) == Gaps(c, beats[..|beats| - 1]) + (if Gap(c, beats, |beats| - 1) then 1 else 0)
  {
    var last := |beats| - 1;
    var front := beats[..last];
    var now := set i | 0 < i < |beats| && Gap(c, beats, i);
    var before := set i | 0 < i < |front| && Gap(c, front, i);
    forall i ensures i in now <==> i in before || (i == last && Gap(c, beats, last)) {
      if 0 < i < last {
        assert front[i] == beats[i] && front[i - 1] == beats[i - 1];
      }
    }
    assert now == if Gap(c, beats, last) then before + {last} else before;
  }

  lemma NoGaps(c: Config, beats: seq<Time>)
    requires |beats| == 1
    ensures Gaps(c, beats) == 0
  {
    assert forall i :: !Gap(c, beats, i);
    assert (set i | 0 < i < |beats| && Gap(c, beats, i)) == {};
  }

  /** The row kept one heartbeat at a time says what the whole history says: the epoch is one more than the
      number of gaps, and the connection started with the first heartbeat after the last gap. */
  lemma {:induction false} RowRefinesHistory(c: Config, beats: seq<Time>) returns (start: nat)
    requires beats != []
    ensures StartsLastConnection(c, beats, start)
    ensures Replayed(c, beats) == Some(Row(
              Micro(beats[start]), Micro(beats[|beats| - 1]), Micro(beats[|beats| - 1]), 1 + Gaps(c, beats), |beats|))
    decreases |beats|
  {
    var last := |beats| - 1;
    if last == 0 {
      start := 0;
      NoGaps(c, beats);
      assert Replayed(c, beats[..0]) == None;
    } else {
      var front := beats[..last];
      var s := RowRefinesHistory(c, front);
      GapsGrow(c, beats);
      start := if Gap(c, beats, last) then last else s;
      forall i | start < i < |beats| ensures !Gap(c, beats, i) {
        assert i < last ==> Gap(c, front, i) == Gap(c, beats, i);
      }
      assert s > 0 ==> Gap(c, front, s) == Gap(c, beats, s);
    }
  }

  /** With a clock that does not go back the stored row passes its own validation. Whoever was silent for too long,
      or never sent a heartbeat, counts as offline; otherwise as online exactly after an uninterrupted connection
      that is long enough, and before that as connecting. */
  lemma RowIsValid(c: Config, beats: seq<Time>, now: Time)
    requires beats != [] && Monotone(beats)
    ensures Replayed(c, beats).value.Valid()
    ensures ComputedStatus(c, None, now) == Offline
    ensures ComputedStatus(c, Replayed(c, beats), now) == Offline <==> now - Micro(beats[|beats| - 1]) > c.offlineAfter
    ensures ComputedStatus(c, Replayed(c, beats), now) == Online <==>
              exists start: nat :: StartsLastConnection(c, beats, start)
                              && now - Micro(beats[start]) >= c.onlineAfter
                              && now - Micro(beats[|beats| - 1]) <= c.offlineAfter
  {
    var start := RowRefinesHistory(c, beats);
    assert beats[start] <= beats[|beats| - 1];
    MicroMonotone(beats[start], beats[|beats| - 1]);
    forall other: nat | StartsLastConnection(c, beats, other) ensures other == start {
      StartIsUnique(c, beats, start, other);
    }
  }

  lemma MicroMonotone(a: Time, b: Time)
    requires a <= b
    ensures Micro(a) <= Micro(b)
  {
  }

  lemma StartIsUnique(c: Config, beats: seq<Time>, a: nat, b: nat)
    requires StartsLastConnection(c, beats, a) && StartsLastConnection(c, beats, b)
    ensures a == b
  {
  }

  // ---------------------------------------------------------------------------- notifications

  /** `bornAt` maps each request to the epoch at its creation, 0 without presence. A caller that notifies of a
      new request has read an epoch that may be out of date when it reserves. `reserved` holds the rows. */
  datatype State = State(
    row: Option<Row>, bornAt: map<Id, int>, readers: map<Id, (Id, int)>, reserved: set<(Id, int)>, sent: map<Id, nat>)

  const EMPTY: State := State(None, map[], map[], {}, map[])

  function Epoch(row: Option<Row>): int { if row.None? then 0 else row.value.epoch }

  /** INSERT ... ON CONFLICT DO NOTHING; a notification follows only an inserted row. */
  function Reserve(s: State, request: Id, epoch: int): State {
    if (request, epoch) in s.reserved then s
    else s.(reserved := s.reserved + {(request, epoch)},
            sent := s.sent[request := (if request in s.sent then s.sent[request] else 0) + 1])
  }

  function Heartbeat(c: Config, s: State, pending: Option<Id>, now: Time): State {
    var s := s.(row := Some(Beat(c, s.row, now)));
    if pending.None? || ComputedStatus(c, s.row, now) != Online then s else Reserve(s, pending.value, Epoch(s.row))
  }

  datatype Event =
    | EHeartbeat(pending: Option<Id>, now: Time)
    | ECreateRequest(request: Id)
    | EReadEpoch(caller: Id, request: Id)
    | ENotifyCreated(caller: Id)

  function Next(c: Config, s: State, e: Event): State {
    match e
    case EHeartbeat(pending, now) => Heartbeat(c, s, pending, now)
    case ECreateRequest(request) => if request in s.bornAt then s else s.(bornAt := s.bornAt[request := Epoch(s.row)])
    case EReadEpoch(caller, request) => s.(readers := s.readers[caller := (request, Epoch(s.row))])
    case ENotifyCreated(caller) =>
      if caller !in s.readers then s
      else Reserve(s.(readers := s.readers - {caller}), s.readers[caller].0, s.readers[caller].1)
  }

  /** Only requests that exist are looked up or announced. */
  predicate Fair(s: State, e: Event) {
    match e
    case EHeartbeat(pending, _) => pending.Some? ==> pending.value in s.bornAt
    case EReadEpoch(_, request) => request in s.bornAt
    case _ => true
  }

  function Run(c: Config, s: State, run: seq<Event>): State
    decreases |run|
  {
    if run == [] then s else Run(c, Next(c, s, run[0]), run[1..])
  }

  predicate FairRun(c: Config, s: State, run: seq<Event>)
    decreases |run|
  {
    run == [] || (Fair(s, run[0]) && FairRun(c, Next(c, s, run[0]), run[1..]))
  }

  function EpochsOf(reserved: set<(Id, int)>, request: Id): set<int> {
    set p | p in reserved && p.0 == request :: p.1
  }

  ghost predicate Inv(s: State) {
    && (s.row.Some? ==> s.row.value.epoch >= 1)
    && (forall r :: r in s.bornAt ==> 0 <= s.bornAt[r] <= Epoch(s.row))
    && (forall p :: p in s.reserved ==> p.0 in s.bornAt && s.bornAt[p.0] <= p.1 <= Epoch(s.row))
    && (forall k :: k in s.readers ==>
          s.readers[k].0 in s.bornAt && s.bornAt[s.readers[k].0] <= s.readers[k].1 <= Epoch(s.row))
    && (forall r :: r in s.sent ==> s.sent[r] == |EpochsOf(s.reserved, r)|)
    && (forall r :: r in s.sent ==> r in s.bornAt)
    && (forall p :: p in s.reserved ==> p.0 in s.sent)
  }

  lemma ReserveKeeps(s: State, request: Id, epoch: int)
    requires Inv(s) && request in s.bornAt && s.bornAt[request] <= epoch <= Epoch(s.row)
    ensures Inv(Reserve(s, request, epoch))
  {
    var s' := Reserve(s, request, epoch);
    if s' != s {
      forall r | r in s'.sent ensures s'.sent[r] == |EpochsOf(s'.reserved, r)| {
        if r == request {
          assert EpochsOf(s'.reserved, r) == EpochsOf(s.reserved, r) + {epoch};
          if r !in s.sent {
            assert EpochsOf(s.reserved, r) == {};
          }
        } else {
          assert EpochsOf(s'.reserved, r) == EpochsOf(s.reserved, r);
        }
      }
    }
  }

  lemma StepKeeps(c: Config, s: State, e: Event)
    requires Inv(s) && Fair(s, e)
    ensures Inv(Next(c, s, e))
  {
    match e
    case EHeartbeat(pending, now) =>
      var s1 := s.(row := Some(Beat(c, s.row, now)));
      assert Inv(s1);
      if pending.Some? && ComputedStatus(c, s1.row, now) == Online {
        ReserveKeeps(s1, pending.value, Epoch(s1.row));
      }
    case ENotifyCreated(caller) =>
      if caller in s.readers {
        var s1 := s.(readers := s.readers - {caller});
        assert Inv(s1);
        ReserveKeeps(s1, s.readers[caller].0, s.readers[caller].1);
      }
    case _ =>
  }

  lemma {:induction false} RunKeeps(c: Config, s: State, run: seq<Event>)
    requires Inv(s) && FairRun(c, s, run)
    ensures Inv(Run(c, s, run))
    decreases |run|
  {
    if run != [] {
      StepKeeps(c, s, run[0]);
      RunKeeps(c, Next(c, s, run[0]), run[1..]);
    }
  }

  lemma {:induction false} IntervalSize(epochs: set<int>, lo: int, hi: int)
    requires lo <= hi + 1 && forall e :: e in epochs ==> lo <= e <= hi
    ensures |epochs| <= hi - lo + 1
    decreases hi + 1 - lo
  {
    if lo <= hi {
      IntervalSize(epochs - {hi}, lo, hi - 1);
    } else {
      assert forall e :: e !in epochs;
      assert |epochs| == 0;
    }
  }

  /** After a heartbeat that finds the user online, the request that waits has been announced for this connection,
      then or before; and an announcement is never forgotten. */
  lemma OnlineIsAnnounced(c: Config, s: State, request: Id, now: Time, e: Event)
    ensures var s' := Next(c, s, EHeartbeat(Some(request), now));
            && s'.row == Some(Beat(c, s.row, now))
            && (ComputedStatus(c, s'.row, now) == Online ==> (request, Epoch(s'.row)) in s'.reserved)
            && (ComputedStatus(c, s'.row, now) != Online ==> s'.reserved == s.reserved && s'.sent == s.sent)
    ensures s.reserved <= Next(c, s, e).reserved
    ensures forall p :: p in Next(c, s, e).reserved && p !in s.reserved ==>
              p.0 in Next(c, s, e).sent
              && Next(c, s, e).sent[p.0] == (if p.0 in s.sent then s.sent[p.0] else 0) + 1
  {
  }

  /** Over any run the family is notified of a request at most once per connection since the request was made. */
  lemma OneNotificationPerConnection(c: Config, run: seq<Event>, request: Id)
    requires FairRun(c, EMPTY, run) && request in Run(c, EMPTY, run).sent
    ensures var s := Run(c, EMPTY, run);
            request in s.bornAt && s.sent[request] <= Epoch(s.row) - s.bornAt[request] + 1
  {
    RunKeeps(c, EMPTY, run);
    var s := Run(c, EMPTY, run);
    IntervalSize(EpochsOf(s.reserved, request), s.bornAt[request], Epoch(s.row));
  }

  // ----------------------------------------------------------------------------------- server

  class Companion {
    const config: Config
    var row: Option<Row>
    var reserved: set<(Id, int)>
    ghost var beats: seq<Time>

    constructor (c: Config)
      ensures config == c && row == None && reserved == {} && beats == []
    {
      config, row, reserved, beats := c, None, {}, [];
    }

    /** The row is what the history of heartbeats makes it. */
    ghost predicate Valid()
      reads this
    {
      row == Replayed(config, beats)
    }

    method ReserveNotification(request: Id, epoch: int) returns (inserted: bool)
      modifies `reserved
      ensures reserved == old(reserved) + {(request, epoch)}
      ensures inserted == ((request, epoch) !in old(reserved))
    {
      inserted := (request, epoch) !in reserved;
      reserved := reserved + {(request, epoch)};
    }

    method RecordHeartbeat(pending: Option<Id>, now: Time) returns (status: Status, notify: bool)
      requires Valid()
      modifies this
      ensures Valid() && beats == old(beats) + [now]
      ensures status == ComputedStatus(config, row, now)
      ensures notify <==> status == Online && pending.Some? && (pending.value, row.value.epoch) !in old(reserved)
      ensures reserved == if notify then old(reserved) + {(pending.value, row.value.epoch)} else old(reserved)
      ensures forall s: State :: s.row == old(row) && s.reserved == old(reserved) ==>
                var s' := Next(config, s, EHeartbeat(pending, now)); s'.row == row && s'.reserved == reserved
    {
      if row.None? {
        row := Some(Row(Micro(now), Micro(now), Micro(now), 1, 1));
      } else {
        var connectedSince, epoch := row.value.connectedSince, row.value.epoch;
        if now - row.value.lastSeenAt >= config.reconnectAfter {
          connectedSince := Micro(now);
          epoch := epoch + 1;
        }
        row := Some(Row(connectedSince, Micro(now), Micro(now), epoch, row.value.revision + 1));
      }
      beats := beats + [now];
      assert beats[..|beats| - 1] == old(beats);
      status := ComputedStatus(config, row, now);
      notify := false;
      if status == Online && pending.Some? {
        notify := ReserveNotification(pending.value, row.value.epoch);
        assert !notify ==> reserved == old(reserved);
      }
    }

    method NotifyRequestCreated(request: Id) returns (notify: bool)
      modifies `reserved
      ensures notify <==> (request, Epoch(row)) !in old(reserved)
      ensures reserved == old(reserved) + {(request, Epoch(row))}
    {
      var epoch := if row.Some? then row.value.epoch else 0;
      notify := ReserveNotification(request, epoch);
    }
  }
}
