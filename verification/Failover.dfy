/** One live server bounds how stale the row can get, and so how long a dead leader stays. */
module Failover {
  import opened Common
  import opened Database
  import opened Lease
  import opened LeaseInvariants
  import opened Paces
  import opened Stability

  // The age at which a server both judges the lease expired and can take it.
  function Patience(p: Params): nat {
    Max(p.timeout, TAKEOVER_AGE_MS)
  }

  function Staleness(p: Params, c: Pace): nat {
    Patience(p) + p.skew + c.gap + OpenTime(c)
  }

  // A tick without errors leaves the row's heartbeat within Patience of the tick's own
  // captured time, by its own write or by whatever stopped it.
  predicate TickOk(p: Params, c: Pace, clock: int, heartbeat: int, srv: Server) {
    match srv.phase
    case Idle => srv.ticks > 0 ==> srv.now <= heartbeat + Patience(p) && clock <= srv.capturedAt + c.gap
    case Replying(_, changed) =>
      changed.Some? && srv.now <= heartbeat + Patience(p) && clock <= srv.capturedAt + c.gap
    case _ =>
      && (srv.ticks > 0 ==> srv.capturedAt <= heartbeat + Patience(p) + p.skew + c.gap)
      && clock <= srv.capturedAt + OpenTime(c)
      && (srv.phase.Renewing? ==> srv.now <= heartbeat + Patience(p))
  }

  ghost predicate Watched(p: Params, c: Pace, w: World) {
    Inv(p, w) && c.id in w.servers && TickOk(p, c, w.clock, w.table.value.lastHeartbeat, w.servers[c.id])
  }

  // Its own step, whatever it finds in the table.
  lemma WatchedOwnStep(p: Params, c: Pace, w: World, a: Action)
    requires Watched(p, c, w) && Enabled(p, w, a) && Keeps(c, w, a) && !a.Advance? && a.id == c.id
    ensures var w' := Apply(p, w, a);
            w'.table.Some? && TickOk(p, c, w'.clock, w'.table.value.lastHeartbeat, w'.servers[c.id])
  {
    assert ServerOk(p.skew, w.clock, w.table.value, c.id, w.servers[c.id]);
    assert w.table.value.leaderId != Some("");
    hide Inv;
  }

  lemma WatchedStep(p: Params, c: Pace, w: World, a: Action)
    requires Watched(p, c, w) && Enabled(p, w, a) && Keeps(c, w, a)
    ensures Watched(p, c, Apply(p, w, a))
  {
    StepInv(p, w, a);
    if !a.Advance? && a.id == c.id {
      WatchedOwnStep(p, c, w, a);
    } else {
      hide Inv;
    }
  }

  lemma {:induction false} WatchedRun(p: Params, c: Pace, w: World, run: seq<Action>)
    requires Watched(p, c, w) && Punctual(p, c, w, run)
    ensures Watched(p, c, Exec(p, w, run))
    decreases |run|
  {
    if run == [] {
    } else {
      WatchedStep(p, c, w, run[0]);
      WatchedRun(p, c, Apply(p, w, run[0]), run[1..]);
    }
  }

  lemma WatchedIsFresh(p: Params, c: Pace, w: World)
    requires Watched(p, c, w) && w.servers[c.id].ticks > 0
    ensures w.clock <= w.table.value.lastHeartbeat + Staleness(p, c)
  {
    assert ServerOk(p.skew, w.clock, w.table.value, c.id, w.servers[c.id]);
  }

  // From start-up on, once one punctual server has finished a tick the row's heartbeat is
  // never older than this bound, no matter who writes it or what the others do.
  lemma RowStaysFresh(p: Params, c: Pace, clock: nat, run: seq<Action>)
    requires p.WellFormed() && c.id in p.ids && Punctual(p, c, Init(p, clock), run)
    ensures var w := Exec(p, Init(p, clock), run);
            && c.id in w.servers && w.table.Some?
            && (w.servers[c.id].ticks > 0 ==> w.clock <= w.table.value.lastHeartbeat + Staleness(p, c))
  {
    InitWatched(p, c, clock);
    WatchedRun(p, c, Init(p, clock), run);
    var w := Exec(p, Init(p, clock), run);
    if w.servers[c.id].ticks > 0 {
      WatchedIsFresh(p, c, w);
    }
  }

  // A leader that has stopped: none of its UPDATEs runs any more.
  predicate Silent(run: seq<Action>, id: ServerId) {
    forall i :: 0 <= i < |run| ==> run[i] != Write(id, true)
  }

  lemma {:induction false} SilentRowHolds(p: Params, w: World, run: seq<Action>, leader: ServerId)
    requires Inv(p, w) && Valid(p, w, run) && Silent(run, leader)
    requires w.table.value.leaderId == Some(leader)
    ensures var w' := Exec(p, w, run);
            && w.elections <= w'.elections
            && (w'.elections == w.elections ==> w'.table == w.table)
    decreases |run|
  {
    if run == [] {
    } else {
      var w1 := Apply(p, w, run[0]);
      StepInv(p, w, run[0]);
      assert run[0] != Write(leader, true);
      assert forall i :: 0 <= i < |run[1..]| ==> run[1..][i] == run[i + 1];
      if w1.elections == w.elections {
        SilentRowHolds(p, w1, run[1..], leader);
      } else {
        ElectionsGrow(p, w1, run[1..]);
      }
    }
  }

  lemma {:induction false} ElectionsGrow(p: Params, w: World, run: seq<Action>)
    requires Valid(p, w, run)
    ensures w.elections <= Exec(p, w, run).elections
    decreases |run|
  {
    if run == [] {
    } else {
      ElectionsGrow(p, Apply(p, w, run[0]), run[1..]);
    }
  }

  // Failover, both ends. A leader whose last landed write carried time h falls silent. Its
  // row stands until true time h + 15000 - skew, and by h + Staleness some server, not
  // necessarily the watched one, has won an election.
  lemma FailoverWindow(p: Params, c: Pace, clock: nat, run: seq<Action>, leader: ServerId, more: seq<Action>)
    requires p.WellFormed() && c.id in p.ids
    requires Punctual(p, c, Init(p, clock), run) && Punctual(p, c, Exec(p, Init(p, clock), run), more)
    requires Names(Exec(p, Init(p, clock), run), leader) && Silent(more, leader)
    ensures var w := Exec(p, Init(p, clock), run);
            var w', h := Exec(p, w, more), w.table.value.lastHeartbeat;
            && (w'.clock <= h + TAKEOVER_AGE_MS - p.skew ==> w'.table == w.table && w'.elections == w.elections)
            && c.id in w'.servers
            && (w'.servers[c.id].ticks > 0 && w'.clock > h + Staleness(p, c) ==> |w'.elections| > |w.elections|)
  {
    hide Watched, Staleness;
    InitWatched(p, c, clock);
    WatchedRun(p, c, Init(p, clock), run);
    var w := Exec(p, Init(p, clock), run);
    WatchedRun(p, c, w, more);
    var w' := Exec(p, w, more);
    WatchedInv(p, c, w);
    WatchedInv(p, c, w');
    SilentRowHolds(p, w, more, leader);
    if w'.servers[c.id].ticks > 0 {
      WatchedIsFresh(p, c, w');
    }
    if w'.clock <= w.table.value.lastHeartbeat + TAKEOVER_AGE_MS - p.skew {
      LeaseOutlastsRun(p, w, more, leader);
    }
  }

  lemma InitWatched(p: Params, c: Pace, clock: nat)
    requires p.WellFormed() && c.id in p.ids
    ensures Watched(p, c, Init(p, clock))
  {
    InitInv(p, clock);
  }

  lemma WatchedInv(p: Params, c: Pace, w: World)
    requires Watched(p, c, w)
    ensures Inv(p, w) && c.id in w.servers
  {
  }

  // No election at all lands while the silent leader's lease lasts.
  lemma {:induction false} LeaseOutlastsRun(p: Params, w: World, run: seq<Action>, leader: ServerId)
    requires Inv(p, w) && Valid(p, w, run) && Silent(run, leader)
    requires w.table.value.leaderId == Some(leader)
    requires Exec(p, w, run).clock <= w.table.value.lastHeartbeat + TAKEOVER_AGE_MS - p.skew
    ensures Exec(p, w, run).elections == w.elections && Exec(p, w, run).table == w.table
    decreases |run|
  {
    if run == [] {
    } else {
      var a, w1 := run[0], Apply(p, w, run[0]);
      StepInv(p, w, a);
      ClockGrows(p, w1, run[1..]);
      assert a != Write(leader, true);
      assert forall i :: 0 <= i < |run[1..]| ==> run[1..][i] == run[i + 1];
      if !a.Advance? {
        assert ServerOk(p.skew, w.clock, w.table.value, a.id, w.servers[a.id]);
      }
      LeaseOutlastsRun(p, w1, run[1..], leader);
    }
  }

  lemma {:induction false} ClockGrows(p: Params, w: World, run: seq<Action>)
    requires Valid(p, w, run)
    ensures w.clock <= Exec(p, w, run).clock
    decreases |run|
  {
    if run == [] {
    } else {
      ClockGrows(p, Apply(p, w, run[0]), run[1..]);
    }
  }

  // ---------- From the leader's death ----------

  // A leader's UPDATE has just landed; the reply has not come back yet.
  predicate JustWrote(w: World, leader: ServerId) {
    && Names(w, leader) && leader in w.servers
    && w.servers[leader].phase.Replying? && w.servers[leader].phase.changed == Some(true)
  }

  predicate AtRest(w: World, id: ServerId) {
    id in w.servers && w.servers[id].phase.Idle?
  }

  // The run so far can be carried on to the end of the survivor's tick, the leader staying
  // silent: the survivor has not been kept until its UPDATE may no longer run.
  ghost predicate CanFinish(p: Params, c: Pace, w: World, leader: ServerId) {
    exists tail :: Punctual(p, c, w, tail) && Silent(tail, leader) && AtRest(Exec(p, w, tail), c.id)
  }

  // A leader's last write has landed. The survivor has ticked at least once and can finish
  // its tick, yet true time is past the leader's capture of the time it wrote by more than
  // the bound. The leader was alive at that capture, so a bound from there holds from its
  // death, whenever that was.
  ghost predicate Late(p: Params, c: Pace, w: World, leader: ServerId, more: seq<Action>, bound: nat)
    requires Punctual(p, c, w, more)
  {
    var w' := Exec(p, w, more);
    && leader != c.id && JustWrote(w, leader) && Silent(more, leader)
    && c.id in w'.servers && w'.servers[c.id].ticks > 0 && CanFinish(p, c, w', leader)
    && w'.clock > w.servers[leader].capturedAt + bound
  }

  ghost predicate ReplacedBy(p: Params, c: Pace, w: World, leader: ServerId, more: seq<Action>, bound: nat)
    requires Punctual(p, c, w, more)
  {
    Late(p, c, w, leader, more, bound) ==> |Exec(p, w, more).elections| > |w.elections|
  }

  // In every run from start-up some election has landed by then.
  ghost predicate FailsOverBy(p: Params, c: Pace, bound: nat) {
    forall clock: nat, run, leader, more ::
      Punctual(p, c, Init(p, clock), run) && Punctual(p, c, Exec(p, Init(p, clock), run), more) ==>
        ReplacedBy(p, c, Exec(p, Init(p, clock), run), leader, more, bound)
  }

  // A tick that outlives the delay bound can only end by observing someone else's election.
  // With no third server there is none, and under a timeout so far below zero it would be
  // found expired at once.
  predicate MayOutlive(p: Params, c: Pace) {
    |p.ids| > 2 && 0 <= p.timeout + OpenTime(c) + 2 * p.skew
  }

  function LastTickTime(p: Params, c: Pace): nat {
    if MayOutlive(p, c) then OpenTime(c) else LandingTime(p, c)
  }

  // The leader's clock may be ahead by the skew, and the survivor's behind by it.
  function FailoverTime(p: Params, c: Pace): nat {
    Patience(p) + 2 * p.skew + c.gap + LastTickTime(p, c)
  }

  // ---------- It is long enough ----------

  // With the whole open time in place of the last tick's, the bound needs no further tick.
  lemma ElectedWithinOpenTime(p: Params, c: Pace, clock: nat, run: seq<Action>, leader: ServerId, more: seq<Action>)
    requires p.WellFormed() && c.id in p.ids
    requires Punctual(p, c, Init(p, clock), run) && Punctual(p, c, Exec(p, Init(p, clock), run), more)
    requires Names(Exec(p, Init(p, clock), run), leader) && Silent(more, leader)
    ensures var w := Exec(p, Init(p, clock), run);
            var w' := Exec(p, w, more);
            && leader in w.servers && c.id in w'.servers
            && (w'.servers[c.id].ticks > 0
                && w'.clock > w.servers[leader].capturedAt + Patience(p) + 2 * p.skew + c.gap + OpenTime(c)
                ==> |w'.elections| > |w.elections|)
  {
    hide Punctual, Exec, Init, Inv;
    FailoverWindow(p, c, clock, run, leader, more);
    CapturedNear(p, clock, run, leader);
  }

  // The row's heartbeat is no further than the skew past the writer's capture.
  lemma CapturedNear(p: Params, clock: nat, run: seq<Action>, leader: ServerId)
    requires p.WellFormed() && Valid(p, Init(p, clock), run) && Names(Exec(p, Init(p, clock), run), leader)
    ensures var w := Exec(p, Init(p, clock), run);
            leader in w.servers && w.table.value.lastHeartbeat <= w.servers[leader].capturedAt + p.skew
  {
    InitInv(p, clock);
    RunInv(p, Init(p, clock), run);
    var w := Exec(p, Init(p, clock), run);
    assert ServerOk(p.skew, w.clock, w.table.value, leader, w.servers[leader]);
  }

  // In a tick past the delay bound, before a row it cannot merely observe.
  ghost predicate Overdue(p: Params, c: Pace, w: World) {
    && Inv(p, w) && c.id in w.servers && p.delay.Some? && (
      var srv := w.servers[c.id];
      && InTick(srv)
      && srv.capturedAt + p.delay.value < w.clock <= srv.capturedAt + OpenTime(c)
      && Branch(p.timeout, c.id, srv.now, w.table).Some?
      && (srv.phase.Deciding? ==> Branch(p.timeout, c.id, srv.now, srv.phase.snapshot).Some?))
  }

  lemma OverdueOwnStep(p: Params, c: Pace, w: World, a: Action)
    requires Overdue(p, c, w) && Enabled(p, w, a) && Keeps(c, w, a) && !a.Advance? && a.id == c.id
    ensures var w' := Apply(p, w, a);
            && w'.table == w.table && w'.clock == w.clock && InTick(w'.servers[c.id])
            && w'.servers[c.id].capturedAt == w.servers[c.id].capturedAt && w'.servers[c.id].now == w.servers[c.id].now
            && (w'.servers[c.id].phase.Deciding? ==> w'.servers[c.id].phase.snapshot == w.table)
  {
    assert w.table.value.leaderId != Some("");
    hide Inv;
  }

  lemma OverdueOthersStep(p: Params, c: Pace, w: World, a: Action, leader: ServerId)
    requires Overdue(p, c, w) && Enabled(p, w, a) && !a.Advance? && a.id != c.id && a != Write(leader, true)
    requires p.ids == {leader, c.id} || p.timeout + OpenTime(c) + 2 * p.skew < 0
    ensures var w' := Apply(p, w, a);
            && w'.clock == w.clock && w'.servers[c.id] == w.servers[c.id]
            && Branch(p.timeout, c.id, w.servers[c.id].now, w'.table).Some?
  {
    assert ServerOk(p.skew, w.clock, w.table.value, a.id, w.servers[a.id]);
    assert ServerOk(p.skew, w.clock, w.table.value, c.id, w.servers[c.id]);
    assert a.id in p.ids;
    hide Inv;
  }

  lemma OverdueStep(p: Params, c: Pace, w: World, a: Action, leader: ServerId)
    requires Overdue(p, c, w) && Enabled(p, w, a) && Keeps(c, w, a) && a != Write(leader, true)
    requires p.ids == {leader, c.id} || p.timeout + OpenTime(c) + 2 * p.skew < 0
    ensures Overdue(p, c, Apply(p, w, a))
  {
    StepInv(p, w, a);
    if a.Advance? {
    } else if a.id == c.id {
      OverdueOwnStep(p, c, w, a);
    } else {
      OverdueOthersStep(p, c, w, a, leader);
    }
  }

  // Such a tick never ends.
  lemma {:induction false} OverdueNeverRests(p: Params, c: Pace, w: World, tail: seq<Action>, leader: ServerId)
    requires Overdue(p, c, w) && Punctual(p, c, w, tail) && Silent(tail, leader)
    requires p.ids == {leader, c.id} || p.timeout + OpenTime(c) + 2 * p.skew < 0
    ensures !AtRest(Exec(p, w, tail), c.id)
    decreases |tail|
  {
    if tail == [] {
    } else {
      assert tail[0] != Write(leader, true);
      assert forall i :: 0 <= i < |tail[1..]| ==> tail[1..][i] == tail[i + 1];
      OverdueStep(p, c, w, tail[0], leader);
      OverdueNeverRests(p, c, Apply(p, w, tail[0]), tail[1..], leader);
    }
  }

  // A survivor that is late before a silent leader's unchanged row is overdue.
  lemma LateIsOverdue(p: Params, c: Pace, w: World, captured: int, leader: ServerId)
    requires Watched(p, c, w) && w.servers[c.id].ticks > 0 && Names(w, leader) && leader != c.id
    requires w.table.value.lastHeartbeat <= captured + p.skew
    requires LandingTime(p, c) < OpenTime(c)
    requires w.clock > captured + Patience(p) + 2 * p.skew + c.gap + LandingTime(p, c)
    ensures Overdue(p, c, w)
  {
    assert ServerOk(p.skew, w.clock, w.table.value, c.id, w.servers[c.id]);
    hide Inv;
    assert Inv(p, w);
  }

  lemma TwoServers(ids: set<ServerId>, a: ServerId, b: ServerId)
    requires a in ids && b in ids && a != b && |ids| <= 2
    ensures ids == {a, b}
  {
    if x :| x in ids && x != a && x != b {
      SubsetSize({a, b, x}, ids);
    }
  }

  lemma FailsOverInTime(p: Params, c: Pace, clock: nat, run: seq<Action>, leader: ServerId, more: seq<Action>,
      bound: nat)
    requires p.WellFormed() && c.id in p.ids && FailoverTime(p, c) <= bound
    requires Punctual(p, c, Init(p, clock), run) && Punctual(p, c, Exec(p, Init(p, clock), run), more)
    ensures ReplacedBy(p, c, Exec(p, Init(p, clock), run), leader, more, bound)
  {
    hide Punctual, Exec, Init, Inv, Watched, Overdue, Silent;
    var w := Exec(p, Init(p, clock), run);
    if Late(p, c, w, leader, more, bound) && |Exec(p, w, more).elections| <= |w.elections| {
      var w' := Exec(p, w, more);
      ElectedWithinOpenTime(p, c, clock, run, leader, more);
      CapturedNear(p, clock, run, leader);
      StillNamed(p, c, clock, run, leader, more);
      LateIsOverdue(p, c, w', w.servers[leader].capturedAt, leader);
      if |p.ids| <= 2 {
        TwoServers(p.ids, leader, c.id);
      }
      var tail :| Punctual(p, c, w', tail) && Silent(tail, leader) && AtRest(Exec(p, w', tail), c.id);
      OverdueNeverRests(p, c, w', tail, leader);
      assert false;
    }
  }

  // Without an election the silent leader's row is as it was.
  lemma StillNamed(p: Params, c: Pace, clock: nat, run: seq<Action>, leader: ServerId, more: seq<Action>)
    requires p.WellFormed() && c.id in p.ids
    requires Punctual(p, c, Init(p, clock), run) && Punctual(p, c, Exec(p, Init(p, clock), run), more)
    requires Names(Exec(p, Init(p, clock), run), leader) && Silent(more, leader)
    requires |Exec(p, Exec(p, Init(p, clock), run), more).elections| <= |Exec(p, Init(p, clock), run).elections|
    ensures Exec(p, Exec(p, Init(p, clock), run), more).table == Exec(p, Init(p, clock), run).table
    ensures Watched(p, c, Exec(p, Exec(p, Init(p, clock), run), more)) && leader in p.ids
  {
    hide Watched;
    InitWatched(p, c, clock);
    WatchedRun(p, c, Init(p, clock), run);
    var w := Exec(p, Init(p, clock), run);
    WatchedRun(p, c, w, more);
    WatchedInv(p, c, w);
    SilentRowHolds(p, w, more, leader);
  }

  // ---------- It is the least ----------

  // Holding a fresh snapshot of someone else's row that it cannot take, the watched server
  // ends its tick with nothing changed: by observing, or by an UPDATE that misses.
  lemma LoseTick(p: Params, c: Pace, w: World, run: seq<Action>) returns (run': seq<Action>)
    requires Punctual(p, c, w, run)
    requires var w1 := Exec(p, w, run);
             && c.id in w1.servers && w1.servers[c.id].phase == Deciding(w1.table)
             && w1.servers[c.id].capturedAt == w1.clock
             && w1.table.Some? && w1.table.value.leaderId.Some? && w1.table.value.leaderId.value !in {c.id, ""}
             && !w1.servers[c.id].isLeader
             && (Branch(p.timeout, c.id, w1.servers[c.id].now, w1.table).Some? ==>
                   !MayTakeOver(w1.table.value, w1.servers[c.id].now))
    ensures Punctual(p, c, w, run')
    ensures forall id :: id != c.id && Silent(run, id) ==> Silent(run', id)
    ensures var w1, w2 := Exec(p, w, run), Exec(p, w, run');
            var srv := w1.servers[c.id];
            w2 == w1.(servers := w1.servers[c.id := srv.(phase := Idle, ticks := srv.ticks + 1)])
  {
    hide Punctual, Exec;
    var w1 := Exec(p, w, run);
    run' := PunctualExtend(p, c, w, run, Decide(c.id));
    if Branch(p.timeout, c.id, w1.servers[c.id].now, w1.table).Some? {
      run' := PunctualExtend(p, c, w, run', Reread(c.id, true));
      run' := PunctualExtend(p, c, w, run', Write(c.id, true));
      run' := PunctualExtend(p, c, w, run', Reply(c.id, true));
    }
  }

  // A leader with a fast clock captures and writes at true time 0.
  lemma FirstWrite(p: Params, c: Pace, leader: ServerId) returns (run: seq<Action>)
    requires p.WellFormed() && c.id in p.ids && leader in p.ids && leader != c.id
    ensures Punctual(p, c, Init(p, 0), run)
    ensures var w := Exec(p, Init(p, 0), run);
            && w == World(0, Some(ClusterRow(Some(leader), 1, p.skew)), w.servers, [Election(leader, 1)])
            && JustWrote(w, leader) && w.servers[leader].capturedAt == 0
            && forall id :: id in p.ids && id != leader ==>
                 id in w.servers && w.servers[id] == Server(Idle, 0, false, 0, None, 0)
  {
    var w0 := Init(p, 0);
    assert Punctual(p, c, w0, []) && Exec(p, w0, []) == w0;
    hide Punctual, Exec;
    run := PunctualAttempt(p, c, w0, [], leader, p.skew);
    run := PunctualExtend(p, c, w0, run, Write(leader, true));
  }

  // The watched server, on a slow clock, looks at the last moment the lease still stands.
  lemma LastLook(p: Params, c: Pace, leader: ServerId, w: World) returns (more: seq<Action>)
    requires c.id != leader && leader != "" && c.id in w.servers
    requires w.clock == 0 && w.table == Some(ClusterRow(Some(leader), 1, p.skew))
    requires w.servers[c.id] == Server(Idle, 0, false, 0, None, 0)
    ensures Punctual(p, c, w, more) && Silent(more, leader)
    ensures var now := p.skew + Patience(p);
            Exec(p, w, more) == w.(clock := now + p.skew,
              servers := w.servers[c.id := Server(Idle, now, false, now + p.skew, None, 1)])
  {
    assert Punctual(p, c, w, []) && Exec(p, w, []) == w;
    hide Punctual, Exec;
    var now := p.skew + Patience(p);
    more := PunctualExtend(p, c, w, [], Advance(now + p.skew));
    more := PunctualExtend(p, c, w, more, Capture(c.id, now));
    more := PunctualExtend(p, c, w, more, Read(c.id, true));
    assert Silent(more, leader);
    more := LoseTick(p, c, w, more);
  }

  // Then it captures as late as it may, its clock still behind, and takes its time.
  lemma LatestFailover(p: Params, c: Pace, leader: ServerId, w: World) returns (more: seq<Action>)
    requires c.id != leader && leader != "" && c.id in w.servers
    requires w.clock == 0 && w.table == Some(ClusterRow(Some(leader), 1, p.skew))
    requires w.servers[c.id] == Server(Idle, 0, false, 0, None, 0)
    ensures Punctual(p, c, w, more) && Silent(more, leader)
    ensures var captured := Patience(p) + 2 * p.skew + c.gap;
            Exec(p, w, more) == w.(clock := captured + LastTickTime(p, c),
              servers := w.servers[c.id := Server(Captured, captured - p.skew, false, captured, None, 1)])
  {
    hide Punctual, Exec;
    var look := LastLook(p, c, leader, w);
    more := PunctualExtend(p, c, w, look, Advance(c.gap));
    more := PunctualExtend(p, c, w, more, Capture(c.id, Exec(p, w, more).clock - p.skew));
    more := PunctualExtend(p, c, w, more, Advance(LastTickTime(p, c)));
  }

  // A tick still within the delay bound can run to its end.
  lemma FinishOwn(p: Params, c: Pace, w: World, leader: ServerId)
    requires c.id in w.servers && w.servers[c.id].phase.Captured? && c.id != leader
    requires p.delay.Some? ==> w.clock <= w.servers[c.id].capturedAt + p.delay.value
    ensures CanFinish(p, c, w, leader)
  {
    assert Punctual(p, c, w, []) && Exec(p, w, []) == w;
    hide Punctual, Exec, Branch;
    var tail := PunctualExtend(p, c, w, [], Read(c.id, true));
    tail := PunctualExtend(p, c, w, tail, Decide(c.id));
    if !AtRest(Exec(p, w, tail), c.id) {
      BranchIsUpdate(p.timeout, c.id, w.servers[c.id].now, SelectState(w.table));
      tail := FinishUpdate(p, c, w, tail, leader);
    }
  }

  lemma BranchIsUpdate(timeout: int, id: ServerId, now: int, snapshot: Option<ClusterRow>)
    ensures var next := Branch(timeout, id, now, snapshot);
            next.Some? ==> next.value.Rereading? || next.value.Renewing?
  {
  }

  lemma FinishUpdate(p: Params, c: Pace, w: World, run: seq<Action>, leader: ServerId) returns (run': seq<Action>)
    requires Punctual(p, c, w, run) && Silent(run, leader) && c.id != leader
    requires var w1 := Exec(p, w, run);
             && c.id in w1.servers && (w1.servers[c.id].phase.Rereading? || w1.servers[c.id].phase.Renewing?)
             && (p.delay.Some? ==> w1.clock <= w1.servers[c.id].capturedAt + p.delay.value)
    ensures Punctual(p, c, w, run') && Silent(run', leader) && AtRest(Exec(p, w, run'), c.id)
  {
    hide Punctual, Exec;
    run' := run;
    if Exec(p, w, run).servers[c.id].phase.Rereading? {
      run' := PunctualExtend(p, c, w, run, Reread(c.id, true));
    }
    run' := PunctualExtend(p, c, w, run', Write(c.id, true));
    run' := PunctualExtend(p, c, w, run', Reply(c.id, true));
  }

  // One that is past it ends by observing the election of a third server.
  lemma FinishByObserving(p: Params, c: Pace, w: World, leader: ServerId, third: ServerId)
    requires c.id in w.servers && w.servers[c.id].phase.Captured? && MayOutlive(p, c) && 0 < OpenTime(c)
    requires third in w.servers && third !in {leader, c.id, ""} && w.servers[third] == Server(Idle, 0, false, 0, None, 0)
    requires w.table == Some(ClusterRow(Some(leader), 1, p.skew)) && leader != ""
    requires w.clock == Patience(p) + 2 * p.skew + c.gap + OpenTime(c)
    requires w.servers[c.id].now == Patience(p) + p.skew + c.gap
    ensures CanFinish(p, c, w, leader)
  {
    hide Punctual, Exec, Patience, Branch;
    var tail := ThirdElected(p, c, w, leader, third);
    tail := PunctualExtend(p, c, w, tail, Read(c.id, true));
    BranchIsObserve(p.timeout, c.id, w.servers[c.id].now, ClusterRow(Some(third), 2, w.clock + p.skew));
    tail := PunctualExtend(p, c, w, tail, Decide(c.id));
    assert Silent(tail, leader);
  }

  lemma BranchIsObserve(timeout: int, id: ServerId, now: int, row: ClusterRow)
    requires row.leaderId.Some? && row.leaderId != Some(id) && now - row.lastHeartbeat <= timeout
    ensures Branch(timeout, id, now, Some(row)).None?
  {
  }

  lemma ThirdElected(p: Params, c: Pace, w: World, leader: ServerId, third: ServerId) returns (tail: seq<Action>)
    requires c.id in w.servers && leader != ""
    requires third in w.servers && third !in {leader, c.id} && w.servers[third] == Server(Idle, 0, false, 0, None, 0)
    requires w.table == Some(ClusterRow(Some(leader), 1, p.skew)) && w.clock > Patience(p)
    ensures Punctual(p, c, w, tail) && Silent(tail, leader)
    ensures var w' := Exec(p, w, tail);
            && w'.clock == w.clock && w'.table == Some(ClusterRow(Some(third), 2, w.clock + p.skew))
            && c.id in w'.servers && w'.servers[c.id] == w.servers[c.id]
  {
    assert Punctual(p, c, w, []) && Exec(p, w, []) == w;
    hide Punctual, Exec;
    tail := PunctualAttempt(p, c, w, [], third, w.clock + p.skew);
    tail := PunctualExtend(p, c, w, tail, Write(third, true));
  }

  // The survivor of the latest failover can finish its tick.
  lemma LatestCanFinish(p: Params, c: Pace, leader: ServerId, w: World)
    requires p.WellFormed() && c.id in p.ids && leader in p.ids && leader != c.id
    requires var captured := Patience(p) + 2 * p.skew + c.gap;
             && w.clock == captured + LastTickTime(p, c) && w.table == Some(ClusterRow(Some(leader), 1, p.skew))
             && c.id in w.servers && w.servers[c.id] == Server(Captured, captured - p.skew, false, captured, None, 1)
    requires forall id :: id in p.ids && id != c.id && id != leader ==>
      id in w.servers && w.servers[id] == Server(Idle, 0, false, 0, None, 0)
    ensures CanFinish(p, c, w, leader)
  {
    if p.delay.Some? && p.delay.value < LastTickTime(p, c) {
      assert MayOutlive(p, c);
      var third :| third in p.ids && third != c.id && third != leader by {
        ThirdServer(p.ids, c.id, leader);
      }
      FinishByObserving(p, c, w, leader, third);
    } else {
      FinishOwn(p, c, w, leader);
    }
  }

  lemma ThirdServer(ids: set<ServerId>, a: ServerId, b: ServerId)
    requires |ids| > 2
    ensures exists x :: x in ids && x != a && x != b
  {
    if forall x :: x in ids ==> x == a || x == b {
      SubsetSize(ids, {a, b});
    }
  }

  // FailoverTime is the least such bound, for every cluster, timeout, skew, delay and pace.
  lemma FailoverTimeIsLeast(p: Params, c: Pace, leader: ServerId, bound: nat)
    requires p.WellFormed() && c.id in p.ids && leader in p.ids && leader != c.id
    ensures FailsOverBy(p, c, bound) <==> FailoverTime(p, c) <= bound
  {
    hide Punctual, Exec, Init, CanFinish;
    if FailoverTime(p, c) <= bound {
      forall clock: nat, run, other, more
        | Punctual(p, c, Init(p, clock), run) && Punctual(p, c, Exec(p, Init(p, clock), run), more)
        ensures ReplacedBy(p, c, Exec(p, Init(p, clock), run), other, more, bound)
      {
        FailsOverInTime(p, c, clock, run, other, more, bound);
      }
    } else {
      var run := FirstWrite(p, c, leader);
      var w := Exec(p, Init(p, 0), run);
      var more := LatestFailover(p, c, leader, w);
      LatestCanFinish(p, c, leader, Exec(p, w, more));
      assert !ReplacedBy(p, c, w, leader, more, bound);
    }
  }

  // In particular neither fifteen seconds nor the configured timeout is enough, however
  // often the survivor ticks; with no gap at all time would stand still.
  lemma FifteenSecondsAreNotEnough(p: Params, c: Pace, leader: ServerId)
    requires p.WellFormed() && c.id in p.ids && leader in p.ids && leader != c.id && 0 < c.gap
    ensures !FailsOverBy(p, c, 15000) && !FailsOverBy(p, c, Patience(p) + 2 * p.skew)
  {
    FailoverTimeIsLeast(p, c, leader, 15000);
    FailoverTimeIsLeast(p, c, leader, Patience(p) + 2 * p.skew);
  }
}
