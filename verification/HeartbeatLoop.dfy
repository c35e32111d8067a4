/** One tick of the heartbeat loop as the server runs it, proved to be the steps the lease
    protocol interleaves. */
module HeartbeatLoop {
  import opened Common
  import opened Database
  import opened FlagHistory
  import opened Lease

  // What one tick meets: the clock value, which calls fail, and the table as the other
  // servers have left it just before each of this server's statements.
  datatype Conditions = Conditions(
    now: nat,
    heartbeatOk: bool, readOk: bool, rereadOk: bool, writeOk: bool, replyOk: bool,
    atRead: Option<ClusterRow>, atReread: Option<ClusterRow>, atWrite: Option<ClusterRow>)

  // The protocol action a server in the given phase takes next.
  function NextAction(id: ServerId, phase: Phase, c: Conditions): Action
    requires !phase.Idle?
  {
    match phase
    case Captured => Read(id, c.readOk)
    case Deciding(_) => Decide(id)
    case Rereading => Reread(id, c.rereadOk)
    case Acquiring(_) => Write(id, c.writeOk)
    case Renewing => Write(id, c.writeOk)
    case Replying(_, _) => Reply(id, c.replyOk)
  }

  // The table that action finds.
  function TableAt(phase: Phase, table: Option<ClusterRow>, c: Conditions): Option<ClusterRow> {
    match phase
    case Captured => c.atRead
    case Rereading => c.atReread
    case Acquiring(_) => c.atWrite
    case Renewing => c.atWrite
    case _ => table
  }

  function Remaining(phase: Phase): nat {
    match phase
    case Idle => 0
    case Replying(_, _) => 1
    case Acquiring(_) => 2
    case Renewing => 2
    case Rereading => 3
    case Deciding(_) => 4
    case Captured => 5
  }

  // The rest of a tick, one protocol step after another.
  function Finish(id: ServerId, timeout: int, srv: Server, table: Option<ClusterRow>, c: Conditions)
    : (Server, Option<ClusterRow>)
    decreases Remaining(srv.phase)
  {
    if srv.phase.Idle? then (srv, table)
    else
      var (srv', table') :=
        LocalStep(timeout, srv.capturedAt, srv, TableAt(srv.phase, table, c), NextAction(id, srv.phase, c));
      Finish(id, timeout, srv', table', c)
  }

  // What the protocol rules out of a server's own next step: a second read that fails where
  // it may not, an UPDATE that lands later than it may.
  predicate Permitted(p: Params, clock: int, srv: Server, c: Conditions) {
    && (srv.phase.Rereading? && !c.rereadOk ==> p.rereadMayFail)
    && ((srv.phase.Acquiring? || srv.phase.Renewing?) && c.writeOk && p.delay.Some? ==>
          clock <= srv.capturedAt + p.delay.value)
  }

  lemma NextIsEnabled(p: Params, w: World, id: ServerId, c: Conditions)
    requires id in w.servers && !w.servers[id].phase.Idle? && Permitted(p, w.clock, w.servers[id], c)
    ensures Enabled(p, w, NextAction(id, w.servers[id].phase, c))
  {
  }

  lemma NextProgresses(timeout: int, clock: int, id: ServerId, srv: Server, table: Option<ClusterRow>, c: Conditions)
    requires !srv.phase.Idle?
    ensures var (srv', _) := LocalStep(timeout, clock, srv, table, NextAction(id, srv.phase, c));
            Remaining(srv'.phase) < Remaining(srv.phase) && srv'.capturedAt == srv.capturedAt && srv'.now == srv.now
  {
  }

  predicate IsOwn(a: Action, id: ServerId) {
    !a.Advance? && a.id == id
  }

  // A schedule in which this server finishes its tick: its own steps are those `c` tells,
  // each finding the table `c` tells; everyone else's are any steps the protocol enables.
  ghost predicate Performs(p: Params, w: World, run: seq<Action>, id: ServerId, c: Conditions)
    decreases |run|
  {
    && id in w.servers
    && if run == [] then w.servers[id].phase.Idle?
       else if !IsOwn(run[0], id) then Enabled(p, w, run[0]) && Performs(p, Apply(p, w, run[0]), run[1..], id, c)
       else
         var phase := w.servers[id].phase;
         && !phase.Idle? && run[0] == NextAction(id, phase, c) && Permitted(p, w.clock, w.servers[id], c)
         && TableAt(phase, w.table, c) == w.table
         && (NextIsEnabled(p, w, id, c); Performs(p, Apply(p, w, run[0]), run[1..], id, c))
  }

  // The table just after this server's last statement of the run.
  function OwnTable(p: Params, w: World, run: seq<Action>, id: ServerId, table: Option<ClusterRow>): Option<ClusterRow>
    requires Valid(p, w, run)
    decreases |run|
  {
    if run == [] then table
    else
      var w' := Apply(p, w, run[0]);
      var isStatement := IsOwn(run[0], id) && (run[0].Read? || run[0].Reread? || run[0].Write?);
      OwnTable(p, w', run[1..], id, if isStatement then w'.table else table)
  }

  lemma OwnStep(p: Params, w: World, id: ServerId, c: Conditions, table: Option<ClusterRow>)
    requires id in w.servers && !w.servers[id].phase.Idle? && Permitted(p, w.clock, w.servers[id], c)
    requires TableAt(w.servers[id].phase, w.table, c) == w.table
    ensures var srv, a := w.servers[id], NextAction(id, w.servers[id].phase, c);
            && Enabled(p, w, a) && IsOwn(a, id) && id in Apply(p, w, a).servers
            && LocalStep(p.timeout, srv.capturedAt, srv, TableAt(srv.phase, table, c), a)
               == (Apply(p, w, a).servers[id], if a.Decide? || a.Reply? then table else Apply(p, w, a).table)
  {
    NextIsEnabled(p, w, id, c);
  }

  lemma OthersStep(p: Params, w: World, id: ServerId, a: Action)
    requires id in w.servers && Enabled(p, w, a) && !IsOwn(a, id)
    ensures id in Apply(p, w, a).servers && Apply(p, w, a).servers[id] == w.servers[id]
  {
  }

  // A tick among other servers' steps is a run of the protocol, and what the tick computes is
  // what that run leaves of this server and its statements.
  lemma {:induction false} ScheduledTickIsARun(
    p: Params, w: World, run: seq<Action>, id: ServerId, c: Conditions, table: Option<ClusterRow>)
    requires Performs(p, w, run, id, c)
    ensures Valid(p, w, run) && id in Exec(p, w, run).servers
    ensures Finish(id, p.timeout, w.servers[id], table, c)
         == (Exec(p, w, run).servers[id], OwnTable(p, w, run, id, table))
    decreases |run|
  {
    hide LocalStep, Apply, Enabled, TableAt, NextAction, Permitted;
    if run == [] {
    } else {
      if IsOwn(run[0], id) {
        OwnStep(p, w, id, c, table);
        var w' := Apply(p, w, run[0]);
        NextIsStatement(id, w.servers[id].phase, c);
        ScheduledTickIsARun(p, w', run[1..], id, c, if run[0].Decide? || run[0].Reply? then table else w'.table);
      } else {
        OthersStep(p, w, id, run[0]);
        ScheduledTickIsARun(p, Apply(p, w, run[0]), run[1..], id, c, table);
      }
    }
  }

  lemma NextIsStatement(id: ServerId, phase: Phase, c: Conditions)
    requires !phase.Idle?
    ensures var a := NextAction(id, phase, c); a.Read? || a.Reread? || a.Write? || a.Decide? || a.Reply?
  {
  }

  // ---------- Every tick of every run ----------

  predicate NoCapture(run: seq<Action>, id: ServerId) {
    forall i :: 0 <= i < |run| ==> !(run[i].Capture? && run[i].id == id)
  }

  // What a server's own step shows of the conditions its tick meets.
  function Recorded(c: Conditions, table: Option<ClusterRow>, a: Action): Conditions {
    match a
    case Read(_, ok) => c.(atRead := table, readOk := ok)
    case Reread(_, ok) => c.(atReread := table, rereadOk := ok)
    case Write(_, ok) => c.(atWrite := table, writeOk := ok)
    case Reply(_, ok) => c.(replyOk := ok)
    case _ => c
  }

  // Agreement on everything a tick with this much left to do has already met.
  predicate Agree(c: Conditions, d: Conditions, left: nat) {
    && c.now == d.now && c.heartbeatOk == d.heartbeatOk
    && (left < 5 ==> c.atRead == d.atRead && c.readOk == d.readOk)
    && (left < 3 ==> c.atReread == d.atReread && c.rereadOk == d.rereadOk)
    && (left < 2 ==> c.atWrite == d.atWrite && c.writeOk == d.writeOk)
    && (left < 1 ==> c.replyOk == d.replyOk)
  }

  // Where in its tick a server takes this step.
  function Due(a: Action): nat {
    match a
    case Read(_, _) => 5
    case Decide(_) => 4
    case Reread(_, _) => 3
    case Write(_, _) => 2
    case Reply(_, _) => 1
    case _ => 0
  }

  lemma DuePhase(p: Params, w: World, id: ServerId, a: Action)
    requires id in w.servers && Enabled(p, w, a) && IsOwn(a, id) && !a.Capture?
    ensures Remaining(w.servers[id].phase) == Due(a) > 0 && id in Apply(p, w, a).servers
    ensures Remaining(Apply(p, w, a).servers[id].phase) < Due(a)
  {
  }

  // What is met at this step, and what was met before it.
  lemma AgreeBack(c: Conditions, met: Conditions, table: Option<ClusterRow>, a: Action, next: nat)
    requires next < Due(a) && Agree(c, Recorded(met, table, a), next)
    ensures Agree(c, met, Due(a)) && c == Recorded(c, table, a)
  {
  }

  lemma RecordedStep(p: Params, w: World, id: ServerId, a: Action, c: Conditions)
    requires id in w.servers && Enabled(p, w, a) && IsOwn(a, id) && Remaining(w.servers[id].phase) == Due(a) > 0
    requires c == Recorded(c, w.table, a)
    ensures var phase := w.servers[id].phase;
            && !phase.Idle? && a == NextAction(id, phase, c) && Permitted(p, w.clock, w.servers[id], c)
            && TableAt(phase, w.table, c) == w.table
  {
  }

  lemma {:induction false} ConditionsMet(p: Params, w: World, run: seq<Action>, id: ServerId, met: Conditions)
    returns (c: Conditions)
    requires Valid(p, w, run) && NoCapture(run, id)
    requires id in w.servers && id in Exec(p, w, run).servers && Exec(p, w, run).servers[id].phase.Idle?
    ensures Performs(p, w, run, id, c) && Agree(c, met, Remaining(w.servers[id].phase))
    decreases |run|
  {
    hide Apply, Enabled, TableAt, NextAction, Permitted, Recorded, Agree;
    if run == [] {
      c := met;
      AgreeSelf(c, Remaining(w.servers[id].phase));
    } else {
      var a, rest, w' := run[0], run[1..], Apply(p, w, run[0]);
      assert !(a.Capture? && a.id == id);
      assert forall i :: 0 <= i < |rest| ==> rest[i] == run[i + 1];
      if IsOwn(a, id) {
        DuePhase(p, w, id, a);
        c := ConditionsMet(p, w', rest, id, Recorded(met, w.table, a));
        AgreeBack(c, met, w.table, a, Remaining(w'.servers[id].phase));
        RecordedStep(p, w, id, a, c);
      } else {
        OthersStep(p, w, id, a);
        c := ConditionsMet(p, w', rest, id, met);
      }
    }
  }

  lemma AgreeSelf(c: Conditions, left: nat)
    ensures Agree(c, c, left)
  {
  }

  // A server's history makes no difference to what its tick does.
  lemma {:induction false} HistoryIsIrrelevant(
    id: ServerId, timeout: int, srv: Server, other: Server, table: Option<ClusterRow>, c: Conditions)
    requires srv.phase == other.phase && srv.now == other.now && srv.isLeader == other.isLeader
    ensures var (end, table1) := Finish(id, timeout, srv, table, c);
            var (otherEnd, table2) := Finish(id, timeout, other, table, c);
            end.isLeader == otherEnd.isLeader && table1 == table2
    decreases Remaining(srv.phase)
  {
    if srv.phase.Idle? {
    } else {
      var a, found := NextAction(id, srv.phase, c), TableAt(srv.phase, table, c);
      SameStep(timeout, id, srv, other, found, c);
      NextProgresses(timeout, srv.capturedAt, id, srv, found, c);
      hide LocalStep, Remaining, TableAt, NextAction;
      var (srv', table') := LocalStep(timeout, srv.capturedAt, srv, found, a);
      var (other', _) := LocalStep(timeout, other.capturedAt, other, found, a);
      HistoryIsIrrelevant(id, timeout, srv', other', table', c);
    }
  }

  lemma SameStep(timeout: int, id: ServerId, srv: Server, other: Server, table: Option<ClusterRow>, c: Conditions)
    requires !srv.phase.Idle? && srv.phase == other.phase && srv.now == other.now && srv.isLeader == other.isLeader
    ensures var a := NextAction(id, srv.phase, c);
            var (srv', table1) := LocalStep(timeout, srv.capturedAt, srv, table, a);
            var (other', table2) := LocalStep(timeout, other.capturedAt, other, table, a);
            && srv'.phase == other'.phase && srv'.now == other'.now && srv'.isLeader == other'.isLeader
            && table1 == table2
  {
  }

  // The server as `Cluster.Tick` sees it, with `now` just captured.
  function Fresh(phase: Phase, now: int, isLeader: bool): Server {
    Server(phase, now, isLeader, now, None, 0)
  }

  // The other way round: in every run of the protocol, whatever the others do meanwhile, what
  // a server does from its capture to the end of its tick is the loop body under some
  // conditions, with the same flag and the same table after its last statement.
  lemma EveryTickIsTheLoopBody(p: Params, w: World, run: seq<Action>, id: ServerId, table: Option<ClusterRow>)
    returns (c: Conditions)
    requires Valid(p, w, run) && NoCapture(run, id) && id in w.servers
    requires w.servers[id].phase.Captured? && 0 <= w.servers[id].now
    requires id in Exec(p, w, run).servers && Exec(p, w, run).servers[id].phase.Idle?
    ensures Performs(p, w, run, id, c) && c.heartbeatOk && c.now == w.servers[id].now
    ensures var (srv, table') := Finish(id, p.timeout, Fresh(Captured, c.now, w.servers[id].isLeader), table, c);
            Exec(p, w, run).servers[id].isLeader == srv.isLeader && OwnTable(p, w, run, id, table) == table'
  {
    hide Performs, Finish, OwnTable;
    var met := Conditions(w.servers[id].now, true, true, true, true, true, None, None, None);
    c := ConditionsMet(p, w, run, id, met);
    ScheduledTickIsARun(p, w, run, id, c, table);
    HistoryIsIrrelevant(id, p.timeout, w.servers[id], Fresh(Captured, c.now, w.servers[id].isLeader), table, c);
  }

  // ---------- A tick alone ----------

  // The other servers leave the table alone for the rest of this tick, and nothing the
  // protocol rules out happens.
  predicate Undisturbed(p: Params, w: World, id: ServerId, c: Conditions) {
    && id in w.servers && c.atRead == c.atReread == c.atWrite
    && (Remaining(w.servers[id].phase) >= 2 ==> c.atRead == w.table)
    && (p.delay.Some? ==> w.clock <= w.servers[id].capturedAt + p.delay.value)
    && (!c.rereadOk ==> p.rereadMayFail)
  }

  lemma UndisturbedStep(p: Params, w: World, id: ServerId, c: Conditions)
    requires Undisturbed(p, w, id, c) && !w.servers[id].phase.Idle?
    ensures Permitted(p, w.clock, w.servers[id], c) && TableAt(w.servers[id].phase, w.table, c) == w.table
    ensures Enabled(p, w, NextAction(id, w.servers[id].phase, c))
    ensures var w' := Apply(p, w, NextAction(id, w.servers[id].phase, c));
            id in w'.servers && w'.clock == w.clock && w'.servers[id].capturedAt == w.servers[id].capturedAt
            && (Remaining(w'.servers[id].phase) >= 2 ==> w'.table == w.table)
            && Remaining(w'.servers[id].phase) < Remaining(w.servers[id].phase)
  {
    NextIsEnabled(p, w, id, c);
  }

  // A tick nobody else disturbs is a run of the protocol, step for step.
  lemma {:induction false} UndisturbedTickIsARun(p: Params, w: World, id: ServerId, c: Conditions)
    returns (run: seq<Action>)
    requires Undisturbed(p, w, id, c)
    ensures Performs(p, w, run, id, c) && Valid(p, w, run) && id in Exec(p, w, run).servers
    ensures Finish(id, p.timeout, w.servers[id], w.table, c) == (Exec(p, w, run).servers[id], Exec(p, w, run).table)
    decreases Remaining(w.servers[id].phase)
  {
    if w.servers[id].phase.Idle? {
      run := [];
    } else {
      UndisturbedStep(p, w, id, c);
      OwnStep(p, w, id, c, w.table);
      var a := NextAction(id, w.servers[id].phase, c);
      if a.Decide? || a.Reply? {
        DecisionsLeaveTheTable(p, w, a);
      }
      hide LocalStep, Apply, Enabled, TableAt, NextAction, Remaining, Permitted;
      var rest := UndisturbedTickIsARun(p, Apply(p, w, a), id, c);
      run := [a] + rest;
      assert run[1..] == rest;
    }
  }

  lemma DecisionsLeaveTheTable(p: Params, w: World, a: Action)
    requires Enabled(p, w, a) && (a.Decide? || a.Reply?)
    ensures Apply(p, w, a).table == w.table
  {
  }

  class Cluster {
    const serverId: ServerId
    const leaderTimeoutMs: int
    var isLeader: bool

    constructor (serverId: ServerId, leaderTimeoutMs: int)
      ensures this.serverId == serverId && this.leaderTimeoutMs == leaderTimeoutMs && !isLeader
    {
      this.serverId := serverId;
      this.leaderTimeoutMs := leaderTimeoutMs;
      isLeader := false;
    }

    // This server between ticks, or with `now` just captured, as the protocol sees it.
    function View(phase: Phase, now: int): Server
      reads this
    {
      Fresh(phase, now, isLeader)
    }

    method TryBecomeLeader(db: Db, c: Conditions) returns (won: bool)
      modifies db
      ensures var (srv, table) := Finish(serverId, leaderTimeoutMs, View(Rereading, c.now), old(db.clusterState), c);
              db.clusterState == table && srv.isLeader == (isLeader || won)
      ensures won <==>
        c.writeOk && c.replyOk && Yields(c.atWrite, c.now)
      ensures var term := if c.rereadOk && c.atReread.Some? then c.atReread.value.leaderTerm + 1 else 1;
              db.clusterState == if c.writeOk && Yields(c.atWrite, c.now)
                then Some(ClusterRow(Some(serverId), term, c.now)) else c.atWrite
    {
      db.clusterState := c.atReread;
      var newTerm := 1;
      var state := db.GetClusterState();
      if c.rereadOk && state.Some? {
        newTerm := state.value.leaderTerm + 1;
      }
      ghost var acquiring := View(Acquiring(newTerm), c.now);
      assert Finish(serverId, leaderTimeoutMs, View(Rereading, c.now), old(db.clusterState), c)
          == Finish(serverId, leaderTimeoutMs, acquiring, c.atReread, c);
      db.clusterState := c.atWrite;
      var changed := false;
      if c.writeOk {
        changed := db.BecomeLeader(serverId, newTerm, c.now);
      }
      won := changed && c.replyOk;
      ghost var replying := acquiring.(phase := Replying(true, if c.writeOk then Some(changed) else None),
                                       landed := if changed then Some(c.now) else None);
      assert Finish(serverId, leaderTimeoutMs, acquiring, c.atReread, c)
          == Finish(serverId, leaderTimeoutMs, replying, db.clusterState, c);
      ghost var idle := LocalStep(leaderTimeoutMs, c.now, replying, db.clusterState, Reply(serverId, c.replyOk)).0;
      assert Finish(serverId, leaderTimeoutMs, idle, db.clusterState, c) == (idle, db.clusterState);
    }

    method RenewLeadership(db: Db, c: Conditions) returns (renewed: bool)
      modifies db
      ensures var (srv, table) := Finish(serverId, leaderTimeoutMs, View(Renewing, c.now), old(db.clusterState), c);
              db.clusterState == table && srv.isLeader == renewed
      ensures renewed <==> c.writeOk && c.replyOk && IsNamed(c.atWrite, serverId)
      ensures db.clusterState == if c.writeOk && IsNamed(c.atWrite, serverId)
        then Some(c.atWrite.value.(lastHeartbeat := c.now)) else c.atWrite
    {
      db.clusterState := c.atWrite;
      var changed := false;
      if c.writeOk {
        changed := db.RenewLeadership(serverId, c.now);
      }
      renewed := changed && c.replyOk;
      ghost var replying := View(Renewing, c.now).(phase := Replying(false, if c.writeOk then Some(changed) else None),
                                                   landed := if changed then Some(c.now) else None);
      assert Finish(serverId, leaderTimeoutMs, View(Renewing, c.now), old(db.clusterState), c)
          == Finish(serverId, leaderTimeoutMs, replying, db.clusterState, c);
      ghost var idle := LocalStep(leaderTimeoutMs, c.now, replying, db.clusterState, Reply(serverId, c.replyOk)).0;
      assert Finish(serverId, leaderTimeoutMs, idle, db.clusterState, c) == (idle, db.clusterState);
    }

    // The body of the loop after one interval tick.
    method Tick(db: Db, c: Conditions)
      modifies this, db
      ensures var (srv, table) := if c.heartbeatOk
                then Finish(serverId, leaderTimeoutMs, old(View(Captured, c.now)), old(db.clusterState), c)
                else (old(View(Idle, c.now)), old(db.clusterState));
              db.clusterState == table && isLeader == srv.isLeader
      // A failed heartbeat or read ends the tick there.
      ensures !c.heartbeatOk ==> isLeader == old(isLeader) && db.clusterState == old(db.clusterState)
      ensures c.heartbeatOk && !c.readOk ==> isLeader == old(isLeader) && db.clusterState == c.atRead
      // A vacant lease: won, with the term after the one read again, or the flag as it was.
      ensures c.heartbeatOk && c.readOk && Vacant(c.atRead, c.now, leaderTimeoutMs) ==>
        var won := c.writeOk && Yields(c.atWrite, c.now);
        var term := if c.rereadOk && c.atReread.Some? then c.atReread.value.leaderTerm + 1 else 1;
        && db.clusterState == (if won then Some(ClusterRow(Some(serverId), term, c.now)) else c.atWrite)
        && isLeader == (old(isLeader) || (won && c.replyOk))
      // Its own: the flag says whether the renewal ran, matched and was heard of.
      ensures c.heartbeatOk && c.readOk && !Vacant(c.atRead, c.now, leaderTimeoutMs) && IsNamed(c.atRead, serverId) ==>
        var renewed := c.writeOk && IsNamed(c.atWrite, serverId);
        && db.clusterState == (if renewed then Some(c.atWrite.value.(lastHeartbeat := c.now)) else c.atWrite)
        && isLeader == (renewed && c.replyOk)
      // Another's: the flag is down.
      ensures c.heartbeatOk && c.readOk && !Vacant(c.atRead, c.now, leaderTimeoutMs) && !IsNamed(c.atRead, serverId) ==>
        db.clusterState == c.atRead && !isLeader
    {
      if !c.heartbeatOk {
        return;
      }
      db.clusterState := c.atRead;
      if !c.readOk {
        return;
      }
      var state := db.GetClusterState();
      ghost var deciding := View(Deciding(state), c.now);
      assert Finish(serverId, leaderTimeoutMs, View(Captured, c.now), old(db.clusterState), c)
          == Finish(serverId, leaderTimeoutMs, deciding, c.atRead, c);
      if state.Some? {
        var leaderExpired := c.now - state.value.lastHeartbeat > leaderTimeoutMs;
        if state.value.leaderId.None? || leaderExpired {
          var won := TryBecomeLeader(db, c);
          if won {
            isLeader := true;
          }
        } else if state.value.leaderId == Some(serverId) {
          var renewed := RenewLeadership(db, c);
          if renewed {
            isLeader := true;
          } else {
            isLeader := false;
          }
        } else {
          ghost var idle := LocalStep(leaderTimeoutMs, c.now, deciding, c.atRead, Decide(serverId)).0;
          assert Finish(serverId, leaderTimeoutMs, idle, c.atRead, c) == (idle, c.atRead);
          isLeader := false;
        }
      } else {
        var won := TryBecomeLeader(db, c);
        if won {
          isLeader := true;
        }
      }
    }
  }
}
