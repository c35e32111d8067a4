/** The relay server's byte counts and the connection tracker's counters, which must survive
    overwrites, repeated marks, closes and sweeps in any order. Counters are unbounded here. */
module RelayAccounting {
  import opened Common

  type SessionId = string

  datatype Stat = Stat(
    directAttempt: bool, directSuccess: bool, relayUsed: bool, createdAt: int, completedAt: Option<int>)

  datatype Connection = Connection(bytesRelayed: nat, createdAt: int)

  // `counted` is how many attempts have bumped the total but not yet stored their entry;
  // `accepted` and `retired` are history: all bytes taken in, and the bytes of connections
  // that were closed, swept or overwritten.
  datatype State = State(
    stats: map<SessionId, Stat>, counted: nat,
    totalAttempts: nat, directSuccesses: nat, relayUsed: nat,
    connections: map<SessionId, Connection>, accepted: nat, retired: nat)

  datatype Action =
    | CountAttempt                                             // track_attempt, first half
    | StoreAttempt(id: SessionId, direct: bool, now: int)      // track_attempt, second half
    | MarkSuccess(id: SessionId, direct: bool, now: int)
    | MarkFailed(id: SessionId, relay: bool, now: int)
    | SweepStats(cutoff: int)
    | CreateRelay(id: SessionId, now: int)
    | Send(id: SessionId, bytes: nat)                          // either direction
    | CloseRelay(id: SessionId)                                // its mark_failed is a MarkFailed of its own
    | SweepRelays(cutoff: int)

  function Marked(stats: map<SessionId, Stat>, id: SessionId, a: Action): map<SessionId, Stat>
    requires id in stats && (a.MarkSuccess? || a.MarkFailed?)
  {
    var s := stats[id].(completedAt := Some(a.now));
    stats[id := if a.MarkSuccess? then s.(directSuccess := true)
                else if a.relay then s.(relayUsed := true) else s]
  }

  function Younger<V>(m: map<SessionId, V>, createdAt: V -> int, cutoff: int): map<SessionId, V> {
    map id | id in m && createdAt(m[id]) > cutoff :: m[id]
  }

  lemma YoungerIs<V>(m: map<SessionId, V>, createdAt: V -> int, cutoff: int, kept: map<SessionId, V>)
    requires forall id :: id in kept <==> id in m && createdAt(m[id]) > cutoff
    requires forall id :: id in kept ==> kept[id] == m[id]
    ensures kept == Younger(m, createdAt, cutoff)
  {
  }

  function StatsAfter(stats: map<SessionId, Stat>, cutoff: int): map<SessionId, Stat> {
    Younger(stats, (s: Stat) => s.createdAt, cutoff)
  }

  function RelaysAfter(connections: map<SessionId, Connection>, cutoff: int): map<SessionId, Connection> {
    Younger(connections, (c: Connection) => c.createdAt, cutoff)
  }

  predicate Enabled(st: State, a: Action) {
    a.StoreAttempt? ==> st.counted > 0
  }

  ghost function Apply(st: State, a: Action): State
    requires Enabled(st, a)
  {
    match a
    case CountAttempt => st.(totalAttempts := st.totalAttempts + 1, counted := st.counted + 1)
    case StoreAttempt(id, direct, now) =>
      st.(counted := st.counted - 1, stats := st.stats[id := Stat(direct, false, false, now, None)])
    case MarkSuccess(id, direct, _) =>
      if id !in st.stats then st
      else st.(stats := Marked(st.stats, id, a),
               directSuccesses := if direct then st.directSuccesses + 1 else st.directSuccesses,
               relayUsed := if direct then st.relayUsed else st.relayUsed + 1)
    case MarkFailed(id, relay, _) =>
      if id !in st.stats then st
      else st.(stats := Marked(st.stats, id, a), relayUsed := if relay then st.relayUsed + 1 else st.relayUsed)
    case SweepStats(cutoff) => st.(stats := StatsAfter(st.stats, cutoff))
    case CreateRelay(id, now) =>
      st.(connections := st.connections[id := Connection(0, now)],
          retired := st.retired + if id in st.connections then st.connections[id].bytesRelayed else 0)
    case Send(id, bytes) =>
      if id !in st.connections then st
      else
        var c := st.connections[id];
        st.(connections := st.connections[id := c.(bytesRelayed := c.bytesRelayed + bytes)],
            accepted := st.accepted + bytes)
    case CloseRelay(id) =>
      if id !in st.connections then st
      else st.(connections := st.connections - {id}, retired := st.retired + st.connections[id].bytesRelayed)
    case SweepRelays(cutoff) =>
      var kept := RelaysAfter(st.connections, cutoff);
      st.(connections := kept, retired := st.retired + TotalBytes(st.connections - kept.Keys))
  }

  const INITIAL: State := State(map[], 0, 0, 0, 0, map[], 0, 0)

  // A run reads from its end: the state before the last action, then that action.
  ghost predicate Valid(run: seq<Action>)
    decreases |run|, 0
  {
    run == [] || (Valid(run[..|run| - 1]) && Enabled(Exec(run[..|run| - 1]), run[|run| - 1]))
  }

  ghost function Exec(run: seq<Action>): State
    requires Valid(run)
    decreases |run|, 1
  {
    if run == [] then INITIAL else Apply(Exec(run[..|run| - 1]), run[|run| - 1])
  }

  // ---------- Bytes ----------

  ghost function TotalBytes(connections: map<SessionId, Connection>): nat {
    if connections == map[] then 0
    else
      var id :| id in connections;
      connections[id].bytesRelayed + TotalBytes(connections - {id})
  }

  lemma {:induction false} TotalWithout(connections: map<SessionId, Connection>, id: SessionId)
    requires id in connections
    ensures TotalBytes(connections) == connections[id].bytesRelayed + TotalBytes(connections - {id})
    decreases |connections|
  {
    var chosen :| chosen in connections &&
      TotalBytes(connections) == connections[chosen].bytesRelayed + TotalBytes(connections - {chosen});
    if chosen != id {
      TotalWithout(connections - {chosen}, id);
      TotalWithout(connections - {id}, chosen);
      assert connections - {chosen} - {id} == connections - {id} - {chosen};
    }
  }

  lemma TotalAfterPut(connections: map<SessionId, Connection>, id: SessionId, c: Connection)
    ensures TotalBytes(connections[id := c]) == TotalBytes(connections - {id}) + c.bytesRelayed
  {
    TotalWithout(connections[id := c], id);
    assert connections[id := c] - {id} == connections - {id};
  }

  lemma {:induction false} TotalSplits(connections: map<SessionId, Connection>, kept: set<SessionId>)
    requires kept <= connections.Keys
    ensures TotalBytes(connections) ==
          TotalBytes(connections - kept) + TotalBytes(connections - (connections.Keys - kept))
    decreases kept
  {
    if kept == {} {
      assert connections - kept == connections;
      assert connections - connections.Keys == map[];
    } else {
      var id :| id in kept;
      var fewer := kept - {id};
      TotalSplits(connections, fewer);
      TotalWithout(connections - fewer, id);
      assert connections - fewer - {id} == connections - kept;
      TotalWithout(connections - (connections.Keys - kept), id);
      assert connections - (connections.Keys - kept) - {id} == connections - (connections.Keys - fewer);
    }
  }

  ghost predicate BytesBalance(st: State) {
    st.accepted == TotalBytes(st.connections) + st.retired
  }

  lemma StepBytes(st: State, a: Action)
    requires BytesBalance(st) && Enabled(st, a)
    ensures BytesBalance(Apply(st, a))
  {
    hide TotalBytes;
    match a
    case CreateRelay(id, now) =>
      TotalAfterPut(st.connections, id, Connection(0, now));
      if id in st.connections {
        TotalWithout(st.connections, id);
      } else {
        assert st.connections - {id} == st.connections;
      }
    case Send(id, bytes) =>
      if id in st.connections {
        var c := st.connections[id];
        TotalWithout(st.connections, id);
        TotalAfterPut(st.connections, id, c.(bytesRelayed := c.bytesRelayed + bytes));
      }
    case CloseRelay(id) =>
      if id in st.connections {
        TotalWithout(st.connections, id);
      }
    case SweepRelays(cutoff) =>
      var kept := RelaysAfter(st.connections, cutoff);
      TotalSplits(st.connections, kept.Keys);
      assert st.connections - (st.connections.Keys - kept.Keys) == kept;
    case _ =>
  }

  // What one id has been sent since its relay was last created, read off the run.
  function SentSinceCreate(run: seq<Action>, id: SessionId): nat {
    if run == [] then 0
    else
      var last, before := run[|run| - 1], run[..|run| - 1];
      if last.CreateRelay? && last.id == id then 0
      else if last.Send? && last.id == id then last.bytes + SentSinceCreate(before, id)
      else SentSinceCreate(before, id)
  }

  // Byte conservation for every sequence of operations: what was accepted is what the open
  // connections hold plus what went with the others, and each open connection holds exactly
  // what was sent on it since it was created.
  lemma {:induction false} BytesAreConserved(run: seq<Action>, id: SessionId)
    requires Valid(run)
    ensures BytesBalance(Exec(run))
    ensures id in Exec(run).connections ==> Exec(run).connections[id].bytesRelayed == SentSinceCreate(run, id)
    decreases |run|
  {
    if run == [] {
      assert TotalBytes(map[]) == 0;
    } else {
      BytesAreConserved(run[..|run| - 1], id);
      StepBytes(Exec(run[..|run| - 1]), run[|run| - 1]);
    }
  }

  // ---------- The tracker ----------

  ghost function Flagged(stats: map<SessionId, Stat>): set<SessionId> {
    set id | id in stats && (stats[id].directSuccess || stats[id].relayUsed)
  }

  ghost predicate TrackerOk(st: State) {
    && |st.stats| + st.counted <= st.totalAttempts
    && |Flagged(st.stats)| <= st.directSuccesses + st.relayUsed
  }

  lemma StepTracker(st: State, a: Action)
    requires TrackerOk(st) && Enabled(st, a)
    ensures TrackerOk(Apply(st, a))
  {
    match a
    case StoreAttempt(id, direct, now) =>
      var stats := st.stats[id := Stat(direct, false, false, now, None)];
      assert stats.Keys == st.stats.Keys + {id};
      SubsetSize(Flagged(stats), Flagged(st.stats));
    case SweepStats(cutoff) =>
      SubsetSize(StatsAfter(st.stats, cutoff).Keys, st.stats.Keys);
      SubsetSize(Flagged(StatsAfter(st.stats, cutoff)), Flagged(st.stats));
    case CountAttempt =>
    case CreateRelay(_, _) =>
    case Send(_, _) =>
    case CloseRelay(_) =>
    case SweepRelays(_) =>
    case _ =>
      if a.id in st.stats {
        StepMark(st, a);
      }
  }

  // A mark flags at most its own entry, and only when a counter moves with it.
  lemma StepMark(st: State, a: Action)
    requires TrackerOk(st) && (a.MarkSuccess? || a.MarkFailed?) && a.id in st.stats
    ensures TrackerOk(Apply(st, a))
  {
    var stats := Marked(st.stats, a.id, a);
    assert stats.Keys == st.stats.Keys;
    if a.MarkSuccess? || a.relay {
      SubsetSize(Flagged(stats), Flagged(st.stats) + {a.id});
    } else {
      SubsetSize(Flagged(stats), Flagged(st.stats));
    }
  }

  lemma {:induction false} TrackerStaysWithinItsCounters(run: seq<Action>)
    requires Valid(run)
    ensures |Exec(run).stats| <= Exec(run).totalAttempts
    ensures |Flagged(Exec(run).stats)| <= Exec(run).directSuccesses + Exec(run).relayUsed
    ensures TrackerOk(Exec(run))
    decreases |run|
  {
    if run == [] {
    } else {
      TrackerStaysWithinItsCounters(run[..|run| - 1]);
      StepTracker(Exec(run[..|run| - 1]), run[|run| - 1]);
    }
  }

  // Whether an entry has been marked, either way, since it was last stored.
  function SucceededSinceStore(run: seq<Action>, id: SessionId): bool {
    if run == [] then false
    else
      var last, before := run[|run| - 1], run[..|run| - 1];
      if last.StoreAttempt? && last.id == id then false
      else (last.MarkSuccess? && last.id == id) || SucceededSinceStore(before, id)
  }

  function RelayedSinceStore(run: seq<Action>, id: SessionId): bool {
    if run == [] then false
    else
      var last, before := run[|run| - 1], run[..|run| - 1];
      if last.StoreAttempt? && last.id == id then false
      else (last.MarkFailed? && last.relay && last.id == id) || RelayedSinceStore(before, id)
  }

  lemma FlagsStep(st: State, a: Action, id: SessionId)
    requires Enabled(st, a) && id in Apply(st, a).stats && !(a.StoreAttempt? && a.id == id)
    ensures id in st.stats
    ensures var s, s' := st.stats[id], Apply(st, a).stats[id];
            && s'.directSuccess == (s.directSuccess || (a.MarkSuccess? && a.id == id))
            && s'.relayUsed == (s.relayUsed || (a.MarkFailed? && a.relay && a.id == id))
  {
    hide TotalBytes;
  }

  // An entry's flags are its marks since it was stored, and nothing else's. A success is
  // flagged as direct even when it was counted as a relay.
  lemma {:induction false} FlagsAreMarksSinceStore(run: seq<Action>, id: SessionId)
    requires Valid(run) && id in Exec(run).stats
    ensures Exec(run).stats[id].directSuccess <==> SucceededSinceStore(run, id)
    ensures Exec(run).stats[id].relayUsed <==> RelayedSinceStore(run, id)
    decreases |run|
  {
    if run == [] {
    } else {
      var last, before := run[|run| - 1], run[..|run| - 1];
      if !(last.StoreAttempt? && last.id == id) {
        FlagsStep(Exec(before), last, id);
        FlagsAreMarksSinceStore(before, id);
      }
    }
  }
}
