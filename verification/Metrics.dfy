/**
 The cache of running operations behind the latency and in-flight metrics: every started
 operation is observed once, dropped once, or still cached.
 */
module Metrics {

  datatype Operation =
    | CreateSnapshot | CreateSnapshotAndReady | DeleteSnapshot
    | CreateGroupSnapshot | CreateGroupSnapshotAndReady | DeleteGroupSnapshot
    | OtherOperation(name: string)

  datatype Key = Key(operation: Operation, uid: string)

  /** The name of a driver, the placeholder for one that is not known, or an empty name. */
  datatype Driver = Named(name: string) | UnknownDriver | NoDriver

  datatype Value = Value(driver: Driver, kind: string, start: int)

  datatype Status = Unknown | Cancel | Reported(name: string)

  /** One point of the latency histogram; `key` is the operation it stands for. */
  datatype Observation = Observation(driver: Driver, key: Key, kind: string, status: Status, duration: int)

  /**
   The manager's state; `started` and `dropped` collect the operations newly started and those dropped
   while they were running.
   */
  datatype State = State(
    cache: map<Key, Value>,
    gauge: nat,
    observations: seq<Observation>,
    started: seq<Key>,
    dropped: seq<Key>)

  const EMPTY := State(map[], 0, [], [], [])

  // ---- The calls ----

  datatype Call =
    | Start(key: Key, value: Value, now: int)
    | Drop(key: Key)
    | Record(key: Key, status: Status, driver: Driver, now: int)
    | RecordGroup(key: Key, status: Status, driver: Driver, now: int)

  function Started(s: State, key: Key, value: Value, now: int): State {
    if key in s.cache then s.(gauge := |s.cache|)
    else
      var cache := s.cache[key := value.(start := now)];
      s.(cache := cache, gauge := |cache|, started := s.started + [key])
  }

  function Dropped(s: State, key: Key): State {
    var cache := s.cache - {key};
    s.(cache := cache, gauge := |cache|, dropped := if key in s.cache then s.dropped + [key] else s.dropped)
  }

  /** A create that never finished is observed as cancelled, with the duration of the delete. */
  function Cancelled(s: State, key: Key, duration: int): State {
    if key !in s.cache then s
    else
      var v := s.cache[key];
      s.(cache := s.cache - {key}, observations := s.observations + [Observation(v.driver, key, v.kind, Cancel, duration)])
  }

  function Observing(s: State, key: Key, status: Status, driver: Driver, now: int): State
    requires key in s.cache
  {
    var v := s.cache[key];
    var name := if driver.Named? then driver else v.driver;
    s.(observations := s.observations + [Observation(name, key, v.kind, status, now - v.start)])
  }

  function Forgotten(s: State, key: Key): State {
    var cache := s.cache - {key};
    s.(cache := cache, gauge := |cache|)
  }

  function Cancels(s: State, key: Key, duration: int, create: Operation, ready: Operation): State {
    Cancelled(Cancelled(s, Key(create, key.uid), duration), Key(ready, key.uid), duration)
  }

  /** `delete` cancels `create` and `ready` of the same UID when it is recorded. */
  function Recorded(s: State, key: Key, status: Status, driver: Driver, now: int,
                    delete: Operation, create: Operation, ready: Operation): State {
    if key !in s.cache then s
    else
      var s1 := Observing(s, key, status, driver, now);
      var duration := now - s.cache[key].start;
      Forgotten(if key.operation == delete then Cancels(s1, key, duration, create, ready) else s1, key)
  }

  function After(s: State, c: Call): State {
    match c
    case Start(key, value, now) => Started(s, key, value, now)
    case Drop(key) => Dropped(s, key)
    case Record(key, status, driver, now) =>
      Recorded(s, key, status, driver, now, DeleteSnapshot, CreateSnapshot, CreateSnapshotAndReady)
    case RecordGroup(key, status, driver, now) =>
      Recorded(s, key, status, driver, now, DeleteGroupSnapshot, CreateGroupSnapshot, CreateGroupSnapshotAndReady)
  }

  function AfterAll(s: State, calls: seq<Call>): State {
    if calls == [] then s else After(AfterAll(s, calls[..|calls| - 1]), calls[|calls| - 1])
  }

  // ---- Conservation ----

  function Count(ks: seq<Key>, key: Key): nat {
    if ks == [] then 0 else Count(ks[..|ks| - 1], key) + if ks[|ks| - 1] == key then 1 else 0
  }

  function Observed(os: seq<Observation>): seq<Key> {
    seq(|os|, i requires 0 <= i < |os| => os[i].key)
  }

  lemma CountAppend(ks: seq<Key>, k: Key, key: Key)
    ensures Count(ks + [k], key) == Count(ks, key) + if k == key then 1 else 0
  {
    assert (ks + [k])[..|ks + [k]| - 1] == ks;
  }

  lemma ObservedAppend(os: seq<Observation>, o: Observation, key: Key)
    ensures Count(Observed(os + [o]), key) == Count(Observed(os), key) + if o.key == key then 1 else 0
  {
    assert Observed(os + [o]) == Observed(os) + [o.key];
    CountAppend(Observed(os), o.key, key);
  }

  /** What was started under `key` and neither observed nor dropped, less what is cached. */
  function Excess(s: State, key: Key): int {
    Count(s.started, key) - Count(Observed(s.observations), key) - Count(s.dropped, key) - if key in s.cache then 1 else 0
  }

  /** The same over all operations. */
  function TotalExcess(s: State): int {
    |s.started| - |s.observations| - |s.dropped| - |s.cache|
  }

  /** Operation by operation, and in all, everything started was observed, dropped, or is running. */
  ghost predicate Balanced(s: State) {
    s.gauge == |s.cache| && TotalExcess(s) == 0 && forall key :: Excess(s, key) == 0
  }

  lemma SizeWithout(m: map<Key, Value>, key: Key)
    requires key in m
    ensures |m - {key}| == |m| - 1
  {
    assert (m - {key}).Keys == m.Keys - {key};
  }

  lemma CancellingKeepsExcess(s: State, key: Key, duration: int, k: Key)
    ensures var r := Cancelled(s, key, duration);
            Excess(r, k) == Excess(s, k) && TotalExcess(r) == TotalExcess(s) && key !in r.cache
            && forall other :: other != key ==> (other in r.cache <==> other in s.cache)
  {
    if key in s.cache {
      ObservedAppend(s.observations, Observation(s.cache[key].driver, key, s.cache[key].kind, Cancel, duration), k);
      SizeWithout(s.cache, key);
    }
  }

  lemma ObservingLowersExcess(s: State, key: Key, status: Status, driver: Driver, now: int, k: Key)
    requires key in s.cache
    ensures var r := Observing(s, key, status, driver, now);
            Excess(r, k) == Excess(s, k) - (if k == key then 1 else 0) && TotalExcess(r) == TotalExcess(s) - 1 && r.cache == s.cache
  {
    ObservedAppend(s.observations, Observing(s, key, status, driver, now).observations[|s.observations|], k);
  }

  lemma ForgettingRaisesExcess(s: State, key: Key, k: Key)
    requires key in s.cache
    ensures var r := Forgotten(s, key);
            Excess(r, k) == Excess(s, k) + (if k == key then 1 else 0) && TotalExcess(r) == TotalExcess(s) + 1
            && r.gauge == |r.cache| && r.cache == s.cache - {key}
  {
    SizeWithout(s.cache, key);
  }

  /** The recorded operation is gone, and with a delete the creates of its UID. */
  ghost predicate Cleared(s: State, key: Key, delete: Operation, create: Operation, ready: Operation) {
    key !in s.cache && (key.operation == delete ==> Key(create, key.uid) !in s.cache && Key(ready, key.uid) !in s.cache)
  }

  lemma CancelsKeepExcess(s: State, key: Key, duration: int, create: Operation, ready: Operation, k: Key)
    requires key.operation != create && key.operation != ready
    ensures var r := Cancels(s, key, duration, create, ready);
            && Excess(r, k) == Excess(s, k) && TotalExcess(r) == TotalExcess(s) && (key in r.cache <==> key in s.cache)
            && Key(create, key.uid) !in r.cache && Key(ready, key.uid) !in r.cache
  {
    CancellingKeepsExcess(s, Key(create, key.uid), duration, k);
    CancellingKeepsExcess(Cancelled(s, Key(create, key.uid), duration), Key(ready, key.uid), duration, k);
  }

  lemma OtherRecordingKeepsExcess(s: State, key: Key, status: Status, driver: Driver, now: int, k: Key)
    requires key in s.cache
    ensures var r := Forgotten(Observing(s, key, status, driver, now), key);
            Excess(r, k) == Excess(s, k) && TotalExcess(r) == TotalExcess(s) && r.gauge == |r.cache| && key !in r.cache
  {
    ObservingLowersExcess(s, key, status, driver, now, k);
    ForgettingRaisesExcess(Observing(s, key, status, driver, now), key, k);
  }

  lemma DeleteRecordingKeepsExcess(s: State, key: Key, status: Status, driver: Driver, now: int, duration: int,
                                   create: Operation, ready: Operation, k: Key)
    requires key in s.cache && key.operation != create && key.operation != ready
    ensures var r := Forgotten(Cancels(Observing(s, key, status, driver, now), key, duration, create, ready), key);
            && Excess(r, k) == Excess(s, k) && TotalExcess(r) == TotalExcess(s) && r.gauge == |r.cache|
            && key !in r.cache && Key(create, key.uid) !in r.cache && Key(ready, key.uid) !in r.cache
  {
    var s1 := Observing(s, key, status, driver, now);
    ObservingLowersExcess(s, key, status, driver, now, k);
    CancelsKeepExcess(s1, key, duration, create, ready, k);
    ForgettingRaisesExcess(Cancels(s1, key, duration, create, ready), key, k);
  }

  lemma {:induction false} RecordingKeepsExcess(s: State, key: Key, status: Status, driver: Driver, now: int,
                             delete: Operation, create: Operation, ready: Operation, k: Key)
    requires key in s.cache && delete != create && delete != ready
    ensures var r := Recorded(s, key, status, driver, now, delete, create, ready);
            Excess(r, k) == Excess(s, k) && TotalExcess(r) == TotalExcess(s) && r.gauge == |r.cache|
            && Cleared(r, key, delete, create, ready)
  {
    if key.operation == delete {
      DeleteRecordingKeepsExcess(s, key, status, driver, now, now - s.cache[key].start, create, ready, k);
    } else {
      OtherRecordingKeepsExcess(s, key, status, driver, now, k);
    }
  }

  /** Recording keeps the balance; a recorded delete leaves no create of its UID behind. */
  lemma RecordingConserves(s: State, key: Key, status: Status, driver: Driver, now: int,
                           delete: Operation, create: Operation, ready: Operation)
    requires Balanced(s) && delete != create && delete != ready
    ensures Balanced(Recorded(s, key, status, driver, now, delete, create, ready))
    ensures key in s.cache ==> Cleared(Recorded(s, key, status, driver, now, delete, create, ready), key, delete, create, ready)
  {
    if key in s.cache {
      forall k ensures Excess(Recorded(s, key, status, driver, now, delete, create, ready), k) == 0 {
        RecordingKeepsExcess(s, key, status, driver, now, delete, create, ready, k);
      }
      RecordingKeepsExcess(s, key, status, driver, now, delete, create, ready, key);
    }
  }

  lemma StartConserves(s: State, key: Key, value: Value, now: int)
    requires Balanced(s)
    ensures Balanced(Started(s, key, value, now))
  {
    if key !in s.cache {
      var cache := s.cache[key := value.(start := now)];
      assert cache.Keys == s.cache.Keys + {key};
      forall k ensures Excess(Started(s, key, value, now), k) == 0 {
        CountAppend(s.started, key, k);
        assert Excess(s, k) == 0;
      }
    }
  }

  lemma DropConserves(s: State, key: Key)
    requires Balanced(s)
    ensures Balanced(Dropped(s, key))
  {
    if key in s.cache {
      SizeWithout(s.cache, key);
      forall k ensures Excess(Dropped(s, key), k) == 0 {
        CountAppend(s.dropped, key, k);
        assert Excess(s, k) == 0;
      }
    } else {
      assert s.cache - {key} == s.cache;
    }
  }

  lemma CallConserves(s: State, c: Call)
    requires Balanced(s)
    ensures Balanced(After(s, c))
  {
    match c {
      case Start(key, value, now) => StartConserves(s, key, value, now);
      case Drop(key) => DropConserves(s, key);
      case Record(key, status, driver, now) =>
        RecordingConserves(s, key, status, driver, now, DeleteSnapshot, CreateSnapshot, CreateSnapshotAndReady);
      case RecordGroup(key, status, driver, now) =>
        RecordingConserves(s, key, status, driver, now, DeleteGroupSnapshot, CreateGroupSnapshot, CreateGroupSnapshotAndReady);
    }
  }

  lemma {:induction false} CallsKeepBalance(calls: seq<Call>)
    ensures Balanced(AfterAll(EMPTY, calls))
  {
    if calls != [] {
      CallsKeepBalance(calls[..|calls| - 1]);
      CallConserves(AfterAll(EMPTY, calls[..|calls| - 1]), calls[|calls| - 1]);
    }
  }

  /** After any calls, for every operation: started = observed + dropped + running; the gauge is the number running. */
  lemma Conservation(calls: seq<Call>, key: Key)
    ensures var s := AfterAll(EMPTY, calls);
            && s.gauge == |s.cache|
            && |s.started| == |s.observations| + |s.dropped| + |s.cache|
            && Count(s.started, key) == Count(Observed(s.observations), key) + Count(s.dropped, key) + (if key in s.cache then 1 else 0)
  {
    CallsKeepBalance(calls);
    assert Excess(AfterAll(EMPTY, calls), key) == 0;
  }

  // ---- What is observed ----

  /** The call ends the operation: it drops or records it, or records the delete that cancels it. */
  predicate Ends(c: Call, key: Key) {
    match c
    case Start(_, _, _) => false
    case Drop(k) => k == key
    case Record(k, _, _, _) =>
      k == key || (k.uid == key.uid && k.operation == DeleteSnapshot && key.operation in {CreateSnapshot, CreateSnapshotAndReady})
    case RecordGroup(k, _, _, _) =>
      k == key || (k.uid == key.uid && k.operation == DeleteGroupSnapshot
                   && key.operation in {CreateGroupSnapshot, CreateGroupSnapshotAndReady})
  }

  lemma CallKeepsRunning(s: State, c: Call, key: Key)
    requires key in s.cache && !Ends(c, key)
    ensures key in After(s, c).cache && After(s, c).cache[key] == s.cache[key]
  {
    match c {
      case Start(k, value, now) =>
      case Drop(k) =>
      case Record(k, status, driver, now) =>
        OthersKeepRunning(s, k, status, driver, now, DeleteSnapshot, CreateSnapshot, CreateSnapshotAndReady, key);
      case RecordGroup(k, status, driver, now) =>
        OthersKeepRunning(s, k, status, driver, now, DeleteGroupSnapshot, CreateGroupSnapshot, CreateGroupSnapshotAndReady, key);
    }
  }

  lemma OthersKeepRunning(s: State, k: Key, status: Status, driver: Driver, now: int,
                          delete: Operation, create: Operation, ready: Operation, key: Key)
    requires key in s.cache && k != key
    requires k.operation == delete ==> key != Key(create, k.uid) && key != Key(ready, k.uid)
    ensures var r := Recorded(s, k, status, driver, now, delete, create, ready);
            key in r.cache && r.cache[key] == s.cache[key]
  {}

  lemma {:induction false} RunsUntilEnded(s: State, calls: seq<Call>, key: Key)
    requires key in s.cache && forall c <- calls :: !Ends(c, key)
    ensures key in AfterAll(s, calls).cache && AfterAll(s, calls).cache[key] == s.cache[key]
  {
    if calls != [] {
      assert forall c <- calls[..|calls| - 1] :: c in calls;
      assert calls[|calls| - 1] in calls;
      RunsUntilEnded(s, calls[..|calls| - 1], key);
      CallKeepsRunning(AfterAll(s, calls[..|calls| - 1]), calls[|calls| - 1], key);
    }
  }

  /** The reported driver, if it is known, or the one the operation was started with. */
  predicate DriverOf(o: Observation, driver: Driver, value: Value) {
    match driver
    case Named(name) => o.driver == Named(name)
    case UnknownDriver => o.driver == value.driver
    case NoDriver => o.driver == value.driver
  }

  lemma CancelAppends(s: State, key: Key, duration: int)
    ensures s.observations <= Cancelled(s, key, duration).observations
  {}

  /** The observation comes first; cancelled creates may follow it. */
  lemma RecordingObserves(s: State, key: Key, status: Status, driver: Driver, now: int, delete: Operation, create: Operation, ready: Operation)
    returns (o: Observation)
    requires key in s.cache
    ensures s.observations + [o] <= Recorded(s, key, status, driver, now, delete, create, ready).observations
    ensures o.key == key && o.kind == s.cache[key].kind && o.status == status && o.duration == now - s.cache[key].start
    ensures DriverOf(o, driver, s.cache[key])
  {
    var s1 := Observing(s, key, status, driver, now);
    o := s1.observations[|s.observations|];
    if key.operation == delete {
      var duration := now - s.cache[key].start;
      CancelAppends(s1, Key(create, key.uid), duration);
      CancelAppends(Cancelled(s1, Key(create, key.uid), duration), Key(ready, key.uid), duration);
    }
  }

  /** Whatever else is started, dropped or recorded meanwhile, an operation is observed with the time since its first start. */
  lemma {:induction false} LatencyIsElapsedTime(
    s: State, key: Key, value: Value, start: int, calls: seq<Call>, status: Status, driver: Driver, now: int,
    delete: Operation, create: Operation, ready: Operation)
    returns (o: Observation)
    requires key !in s.cache && forall c <- calls :: !Ends(c, key)
    ensures var before := AfterAll(Started(s, key, value, start), calls);
            before.observations + [o] <= Recorded(before, key, status, driver, now, delete, create, ready).observations
    ensures o.key == key && o.kind == value.kind && o.status == status && o.duration == now - start && DriverOf(o, driver, value)
  {
    RunsUntilEnded(Started(s, key, value, start), calls, key);
    var before := AfterAll(Started(s, key, value, start), calls);
    o := RecordingObserves(before, key, status, driver, now, delete, create, ready);
  }

  /** A cancelled create is observed under its own name, kind and driver, with the duration of the delete. */
  predicate IsCancelled(o: Observation, create: Key, value: Value, duration: int) {
    o.key == create && o.kind == value.kind && o.driver == value.driver && o.status == Cancel && o.duration == duration
  }

  /** A recorded delete cancels exactly the creates of its UID that still run. */
  lemma DeletesCancel(s: State, key: Key, status: Status, driver: Driver, now: int, delete: Operation, create: Operation, ready: Operation)
    requires key in s.cache && key.operation == delete && delete != create && delete != ready && create != ready
    ensures var added := Recorded(s, key, status, driver, now, delete, create, ready).observations[|s.observations|..];
            var ck, rk := Key(create, key.uid), Key(ready, key.uid);
            var d := now - s.cache[key].start;
            && |added| == 1 + (if ck in s.cache then 1 else 0) + (if rk in s.cache then 1 else 0)
            && (ck in s.cache ==> IsCancelled(added[1], ck, s.cache[ck], d))
            && (rk in s.cache ==> IsCancelled(added[|added| - 1], rk, s.cache[rk], d))
  {}

  // ---- The manager ----

  class OperationMetricsManager {
    var cache: map<Key, Value>
    var opInFlight: nat
    var opLatency: seq<Observation>
    ghost var started: seq<Key>
    ghost var dropped: seq<Key>

    ghost function Now(): State
      reads this
    {
      State(cache, opInFlight, opLatency, started, dropped)
    }

    constructor ()
      ensures Now() == EMPTY
    {
      cache, opInFlight, opLatency, started, dropped := map[], 0, [], [], [];
    }

    method OperationStart(key: Key, val: Value, now: int)
      modifies this
      ensures Now() == Started(old(Now()), key, val, now)
    {
      if key !in cache {
        cache := cache[key := val.(start := now)];
        started := started + [key];
      }
      opInFlight := |cache|;
    }

    method DropOperation(key: Key)
      modifies this
      ensures Now() == Dropped(old(Now()), key)
    {
      if key in cache {
        dropped := dropped + [key];
      }
      cache := cache - {key};
      opInFlight := |cache|;
    }

    method Observe(driver: Driver, key: Key, kind: string, status: Status, duration: int)
      modifies this`opLatency
      ensures opLatency == old(opLatency) + [Observation(driver, key, kind, status, duration)]
    {
      opLatency := opLatency + [Observation(driver, key, kind, status, duration)];
    }

    method RecordCancelMetricLocked(val: Value, key: Key, duration: int)
      requires key in cache && cache[key] == val
      modifies this
      ensures Now() == Cancelled(old(Now()), key, duration)
    {
      Observe(val.driver, key, val.kind, Cancel, duration);
      cache := cache - {key};
    }

    method CancelIfPending(key: Key, duration: int)
      modifies this
      ensures Now() == Cancelled(old(Now()), key, duration)
    {
      if key in cache {
        RecordCancelMetricLocked(cache[key], key, duration);
      }
    }

    method Forget(key: Key)
      modifies this
      ensures Now() == Forgotten(old(Now()), key)
    {
      cache := cache - {key};
      opInFlight := |cache|;
    }

    method RecordMetrics(key: Key, status: Status, driverName: Driver, now: int)
      modifies this
      ensures Now() == Recorded(old(Now()), key, status, driverName, now, DeleteSnapshot, CreateSnapshot, CreateSnapshotAndReady)
    {
      if key !in cache {
        return;
      }
      var val := cache[key];
      var duration := now - val.start;
      Observe(if driverName.Named? then driverName else val.driver, key, val.kind, status, duration);
      assert Now() == Observing(old(Now()), key, status, driverName, now);
      if key.operation == DeleteSnapshot {
        CancelIfPending(Key(CreateSnapshot, key.uid), duration);
        CancelIfPending(Key(CreateSnapshotAndReady, key.uid), duration);
      }
      Forget(key);
    }

    method RecordVolumeGroupSnapshotMetrics(key: Key, status: Status, driverName: Driver, now: int)
      modifies this
      ensures Now() == Recorded(old(Now()), key, status, driverName, now,
                                DeleteGroupSnapshot, CreateGroupSnapshot, CreateGroupSnapshotAndReady)
    {
      if key !in cache {
        return;
      }
      var val := cache[key];
      var duration := now - val.start;
      Observe(if driverName.Named? then driverName else val.driver, key, val.kind, status, duration);
      assert Now() == Observing(old(Now()), key, status, driverName, now);
      if key.operation == DeleteGroupSnapshot {
        CancelIfPending(Key(CreateGroupSnapshot, key.uid), duration);
        CancelIfPending(Key(CreateGroupSnapshotAndReady, key.uid), duration);
      }
      Forget(key);
    }
  }
}
