/** Building blocks for concrete schedules of the lease protocol. */
module LeaseRuns {
  import opened Common
  import opened Database
  import opened Lease

  lemma Extend(p: Params, w: World, run: seq<Action>, a: Action) returns (run': seq<Action>)
    requires Valid(p, w, run) && Enabled(p, Exec(p, w, run), a)
    ensures run' == run + [a] && Valid(p, w, run') && Exec(p, w, run') == Apply(p, Exec(p, w, run), a)
  {
    run' := run + [a];
    ExecConcat(p, w, run, [a]);
  }

  lemma Wait(p: Params, w: World, run: seq<Action>, ms: nat) returns (run': seq<Action>)
    requires Valid(p, w, run)
    ensures Valid(p, w, run') && Exec(p, w, run') == Exec(p, w, run).(clock := Exec(p, w, run).clock + ms)
  {
    hide Valid, Exec;
    run' := Extend(p, w, run, Advance(ms));
  }

  predicate MayCapture(p: Params, w: World, id: ServerId, now: int) {
    && id in w.servers && w.servers[id].phase.Idle?
    && 0 <= now && w.servers[id].now <= now && w.clock - p.skew <= now <= w.clock + p.skew
  }

  // A server captures `now`, sees an expired or empty lease, and gets as far as the
  // acquiring UPDATE with the given term in hand.
  lemma Attempt(p: Params, w: World, run: seq<Action>, id: ServerId, now: int, rereadOk: bool)
    returns (run': seq<Action>)
    requires Valid(p, w, run) && (!rereadOk ==> p.rereadMayFail)
    requires var w1 := Exec(p, w, run);
             && MayCapture(p, w1, id, now)
             && w1.table.Some? && w1.table.value.leaderId != Some("")
             && (w1.table.value.leaderId.None? || now - w1.table.value.lastHeartbeat > p.timeout)
    ensures Valid(p, w, run')
    ensures var w1, w2 := Exec(p, w, run), Exec(p, w, run');
            var term := if rereadOk then w1.table.value.leaderTerm + 1 else 1;
            w2 == w1.(servers := w1.servers[id :=
              w1.servers[id].(phase := Acquiring(term), now := now, capturedAt := w1.clock)])
  {
    hide Valid, Exec;
    var r1 := Extend(p, w, run, Capture(id, now));
    var r2 := Extend(p, w, r1, Read(id, true));
    var r3 := Extend(p, w, r2, Decide(id));
    run' := Extend(p, w, r3, Reread(id, rereadOk));
  }

  // The acquiring UPDATE lands and its reply arrives.
  lemma Win(p: Params, w: World, run: seq<Action>, id: ServerId) returns (run': seq<Action>)
    requires Valid(p, w, run)
    requires var w1 := Exec(p, w, run);
             && Enabled(p, w1, Write(id, true)) && Acquires(w1, Write(id, true))
    ensures Valid(p, w, run')
    ensures var w1, w2 := Exec(p, w, run), Exec(p, w, run');
            var srv := w1.servers[id];
            w2 == World(w1.clock, Some(ClusterRow(Some(id), srv.phase.term, srv.now)),
                        w1.servers[id :=
                          srv.(phase := Idle, isLeader := true, landed := Some(srv.now), ticks := srv.ticks + 1)],
                        w1.elections + [Election(id, srv.phase.term)])
  {
    hide Valid, Exec;
    var r1 := Extend(p, w, run, Write(id, true));
    run' := Extend(p, w, r1, Reply(id, true));
  }
}
