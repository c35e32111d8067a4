/** The tracker and relay objects, run in place and proved to take the accounting steps. */
module RelayServers {
  import opened Common
  import opened RelayAccounting

  class ConnectionTracker {
    var stats: map<SessionId, Stat>
    var totalAttempts: nat
    var directSuccesses: nat
    var relayUsed: nat

    ghost function View(): State
      reads this
    {
      State(stats, 0, totalAttempts, directSuccesses, relayUsed, map[], 0, 0)
    }

    // Entries never outnumber attempts, nor flagged entries the two success counters.
    ghost predicate Valid()
      reads this
    {
      TrackerOk(View())
    }

    constructor ()
      ensures Valid() && View() == INITIAL
    {
      stats := map[];
      totalAttempts, directSuccesses, relayUsed := 0, 0, 0;
    }

    method TrackAttempt(id: SessionId, direct: bool, now: int)
      requires Valid()
      modifies this
      ensures Valid() && View() == Apply(Apply(old(View()), CountAttempt), StoreAttempt(id, direct, now))
      ensures stats == old(stats)[id := Stat(direct, false, false, now, None)]
      ensures totalAttempts == old(totalAttempts) + 1
      ensures directSuccesses == old(directSuccesses) && relayUsed == old(relayUsed)
    {
      StepTracker(View(), CountAttempt);
      StepTracker(Apply(View(), CountAttempt), StoreAttempt(id, direct, now));
      totalAttempts := totalAttempts + 1;
      stats := stats[id := Stat(direct, false, false, now, None)];
    }

    method MarkSuccess(id: SessionId, direct: bool, now: int)
      requires Valid()
      modifies this
      ensures Valid() && View() == Apply(old(View()), Action.MarkSuccess(id, direct, now))
      ensures totalAttempts == old(totalAttempts)
      ensures id !in old(stats) ==>
        stats == old(stats) && directSuccesses == old(directSuccesses) && relayUsed == old(relayUsed)
      ensures id in old(stats) ==>
        && stats == old(stats)[id := old(stats)[id].(directSuccess := true, completedAt := Some(now))]
        && directSuccesses == old(directSuccesses) + (if direct then 1 else 0)
        && relayUsed == old(relayUsed) + (if direct then 0 else 1)
    {
      StepTracker(View(), Action.MarkSuccess(id, direct, now));
      if id in stats {
        stats := stats[id := stats[id].(directSuccess := true, completedAt := Some(now))];
        if direct {
          directSuccesses := directSuccesses + 1;
        } else {
          relayUsed := relayUsed + 1;
        }
      }
    }

    method MarkFailed(id: SessionId, relay: bool, now: int)
      requires Valid()
      modifies this
      ensures Valid() && View() == Apply(old(View()), Action.MarkFailed(id, relay, now))
      ensures totalAttempts == old(totalAttempts) && directSuccesses == old(directSuccesses)
      ensures id !in old(stats) ==> stats == old(stats) && relayUsed == old(relayUsed)
      ensures id in old(stats) ==>
        var s := old(stats)[id];
        && stats == old(stats)[id := s.(relayUsed := s.relayUsed || relay, completedAt := Some(now))]
        && relayUsed == old(relayUsed) + (if relay then 1 else 0)
    {
      StepTracker(View(), Action.MarkFailed(id, relay, now));
      if id in stats {
        var stat := stats[id].(completedAt := Some(now));
        if relay {
          stat := stat.(relayUsed := true);
          relayUsed := relayUsed + 1;
        }
        stats := stats[id := stat];
      }
    }

    method CleanupOld(now: int, maxAgeMs: int)
      requires Valid()
      modifies this
      ensures Valid() && View() == Apply(old(View()), SweepStats(now - maxAgeMs))
      ensures forall id :: id in stats <==> id in old(stats) && old(stats)[id].createdAt > now - maxAgeMs
      ensures forall id :: id in stats ==> stats[id] == old(stats)[id]
      ensures totalAttempts == old(totalAttempts)
      ensures directSuccesses == old(directSuccesses) && relayUsed == old(relayUsed)
    {
      var cutoff := now - maxAgeMs;
      StepTracker(View(), SweepStats(cutoff));
      hide TrackerOk, Younger;
      var todo := stats.Keys;
      while todo != {}
        modifies this`stats
        invariant todo <= stats.Keys <= old(stats).Keys
        invariant forall id :: id in stats ==> stats[id] == old(stats)[id]
        invariant forall id :: id in old(stats) && id !in todo ==> (id in stats <==> old(stats)[id].createdAt > cutoff)
        decreases todo
      {
        var id :| id in todo;
        if stats[id].createdAt <= cutoff {
          stats := stats - {id};
        }
        todo := todo - {id};
      }
      YoungerIs(old(stats), (s: Stat) => s.createdAt, cutoff, stats);
      assert stats == StatsAfter(old(stats), cutoff);
    }
  }

  class RelayServer {
    var connections: map<SessionId, Connection>
    const tracker: ConnectionTracker
    ghost var accepted: nat
    ghost var retired: nat

    ghost function View(): State
      reads this
    {
      State(map[], 0, 0, 0, 0, connections, accepted, retired)
    }

    // All bytes accepted are those of open connections and of retired ones.
    ghost predicate Valid()
      reads this, tracker
    {
      BytesBalance(View()) && tracker.Valid()
    }

    constructor (tracker: ConnectionTracker)
      requires tracker.Valid()
      ensures Valid() && View() == INITIAL && this.tracker == tracker
    {
      connections := map[];
      this.tracker := tracker;
      accepted, retired := 0, 0;
    }

    method CreateRelay(id: SessionId, now: int) returns (endpoint: string)
      requires Valid()
      modifies this
      ensures Valid() && View() == Apply(old(View()), Action.CreateRelay(id, now))
      ensures endpoint == "relay:" + id
      ensures connections == old(connections)[id := Connection(0, now)]
    {
      StepBytes(View(), Action.CreateRelay(id, now));
      if id in connections {
        retired := retired + connections[id].bytesRelayed;
      }
      connections := connections[id := Connection(0, now)];
      endpoint := "relay:" + id;
    }

    // relay_to_agent and relay_to_client alike.
    method Relay(id: SessionId, bytes: nat) returns (ok: bool)
      requires Valid()
      modifies this
      ensures Valid() && View() == Apply(old(View()), Send(id, bytes))
      ensures ok == (id in old(connections))
      ensures !ok ==> connections == old(connections)
      ensures ok ==>
        var c := old(connections)[id];
        connections == old(connections)[id := Connection(c.bytesRelayed + bytes, c.createdAt)]
    {
      StepBytes(View(), Send(id, bytes));
      ok := id in connections;
      if ok {
        var c := connections[id];
        connections := connections[id := c.(bytesRelayed := c.bytesRelayed + bytes)];
        accepted := accepted + bytes;
      }
    }

    method CloseRelay(id: SessionId, now: int)
      requires Valid()
      modifies this, tracker
      ensures Valid() && View() == Apply(old(View()), Action.CloseRelay(id))
      ensures tracker.View() ==
        if id in old(connections) then Apply(old(tracker.View()), MarkFailed(id, true, now)) else old(tracker.View())
      ensures connections == old(connections) - {id}
      ensures id in old(connections) && id in old(tracker.stats) ==>
        && tracker.stats == old(tracker.stats)[id :=
             old(tracker.stats)[id].(relayUsed := true, completedAt := Some(now))]
        && tracker.relayUsed == old(tracker.relayUsed) + 1
      ensures id !in old(connections) || id !in old(tracker.stats) ==>
        tracker.stats == old(tracker.stats) && tracker.relayUsed == old(tracker.relayUsed)
    {
      StepBytes(View(), Action.CloseRelay(id));
      if id in connections {
        retired := retired + connections[id].bytesRelayed;
        connections := connections - {id};
        tracker.MarkFailed(id, true, now);
      }
    }

    method CleanupOld(now: int, maxAgeMs: int)
      requires Valid()
      modifies this
      ensures Valid() && View() == Apply(old(View()), SweepRelays(now - maxAgeMs))
      ensures forall id :: id in connections <==>
        id in old(connections) && old(connections)[id].createdAt > now - maxAgeMs
      ensures forall id :: id in connections ==> connections[id] == old(connections)[id]
    {
      var cutoff := now - maxAgeMs;
      StepBytes(View(), SweepRelays(cutoff));
      hide BytesBalance, TotalBytes, TrackerOk, Younger;
      var todo := connections.Keys;
      while todo != {}
        modifies this`connections
        invariant todo <= connections.Keys <= old(connections).Keys
        invariant forall id :: id in connections ==> connections[id] == old(connections)[id]
        invariant forall id :: id in old(connections) && id !in todo ==>
          (id in connections <==> old(connections)[id].createdAt > cutoff)
        decreases todo
      {
        var id :| id in todo;
        if connections[id].createdAt <= cutoff {
          connections := connections - {id};
        }
        todo := todo - {id};
      }
      YoungerIs(old(connections), (c: Connection) => c.createdAt, cutoff, connections);
      assert connections == RelaysAfter(old(connections), cutoff);
      retired := retired + TotalBytes(old(connections) - connections.Keys);
    }
  }
}
