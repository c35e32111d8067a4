/** Runs in which one named server keeps a pace: it captures its clock often enough, its
    UPDATEs land soon enough, and its statements run. Their replies may still be lost, and
    everyone else stays arbitrary. */
module Paces {
  import opened Common
  import opened Database
  import opened Lease
  import opened LeaseRuns

  // gap: the longest true time between two clock captures.
  // delay: the longest true time from a capture to the end of that tick's database work.
  datatype Pace = Pace(id: ServerId, gap: nat, delay: nat)

  // How long a tick can really stay open: the next capture is due before a longer delay ends.
  function OpenTime(c: Pace): nat {
    if c.delay < c.gap then c.delay else c.gap
  }

  predicate InTick(srv: Server) {
    !srv.phase.Idle? && !srv.phase.Replying?
  }

  // Deadlines bind time itself: it may not pass one that is still owed.
  predicate Keeps(c: Pace, w: World, a: Action) {
    c.id in w.servers && (
      var srv := w.servers[c.id];
      match a
      case Advance(ms) =>
        && (srv.ticks > 0 || !srv.phase.Idle? ==> w.clock + ms <= srv.capturedAt + c.gap)
        && (InTick(srv) ==> w.clock + ms <= srv.capturedAt + c.delay)
      case Capture(_, _) => true
      case Decide(_) => true
      case Read(id, ok) => id == c.id ==> ok
      case Reread(id, ok) => id == c.id ==> ok
      case Write(id, ok) => id == c.id ==> ok
      case Reply(_, _) => true)
  }

  predicate Punctual(p: Params, c: Pace, w: World, run: seq<Action>)
    ensures Punctual(p, c, w, run) ==> Valid(p, w, run)
    decreases |run|
  {
    run == [] || (Enabled(p, w, run[0]) && Keeps(c, w, run[0]) && Punctual(p, c, Apply(p, w, run[0]), run[1..]))
  }

  lemma {:induction false} PunctualExtend(p: Params, c: Pace, w: World, run: seq<Action>, a: Action)
    returns (run': seq<Action>)
    requires Punctual(p, c, w, run)
    requires Enabled(p, Exec(p, w, run), a) && Keeps(c, Exec(p, w, run), a)
    ensures run' == run + [a] && Punctual(p, c, w, run') && Exec(p, w, run') == Apply(p, Exec(p, w, run), a)
    decreases |run|
  {
    run' := run + [a];
    if run == [] {
      assert run'[1..] == [];
    } else {
      var rest := PunctualExtend(p, c, Apply(p, w, run[0]), run[1..], a);
      assert run'[1..] == rest;
    }
  }

  // A server sees an empty or expired lease and gets as far as its acquiring UPDATE.
  lemma PunctualAttempt(p: Params, c: Pace, w: World, run: seq<Action>, id: ServerId, now: int)
    returns (run': seq<Action>)
    requires Punctual(p, c, w, run)
    requires var w1 := Exec(p, w, run);
             && c.id in w1.servers && MayCapture(p, w1, id, now)
             && w1.table.Some? && w1.table.value.leaderId != Some("")
             && (w1.table.value.leaderId.None? || now - w1.table.value.lastHeartbeat > p.timeout)
    ensures Punctual(p, c, w, run')
    ensures run' == run + [Capture(id, now), Read(id, true), Decide(id), Reread(id, true)]
    ensures var w1, w2 := Exec(p, w, run), Exec(p, w, run');
            w2 == w1.(servers := w1.servers[id :=
              w1.servers[id].(phase := Acquiring(w1.table.value.leaderTerm + 1), now := now, capturedAt := w1.clock)])
  {
    hide Punctual, Exec;
    var r1 := PunctualExtend(p, c, w, run, Capture(id, now));
    var r2 := PunctualExtend(p, c, w, r1, Read(id, true));
    var r3 := PunctualExtend(p, c, w, r2, Decide(id));
    run' := PunctualExtend(p, c, w, r3, Reread(id, true));
  }

  // The acquiring UPDATE lands and its reply arrives.
  lemma PunctualWin(p: Params, c: Pace, w: World, run: seq<Action>, id: ServerId) returns (run': seq<Action>)
    requires Punctual(p, c, w, run)
    requires var w1 := Exec(p, w, run);
             c.id in w1.servers && Enabled(p, w1, Write(id, true)) && Acquires(w1, Write(id, true))
    ensures Punctual(p, c, w, run')
    ensures var w1, w2 := Exec(p, w, run), Exec(p, w, run');
            var srv := w1.servers[id];
            w2 == World(w1.clock, Some(ClusterRow(Some(id), srv.phase.term, srv.now)),
                        w1.servers[id :=
                          srv.(phase := Idle, isLeader := true, landed := Some(srv.now), ticks := srv.ticks + 1)],
                        w1.elections + [Election(id, srv.phase.term)])
  {
    hide Punctual, Exec;
    var r1 := PunctualExtend(p, c, w, run, Write(id, true));
    run' := PunctualExtend(p, c, w, r1, Reply(id, true));
  }
}
