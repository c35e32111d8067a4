/** The leader-lease protocol: every server runs the heartbeat loop against one shared row.

    A tick is cut at its database calls. Each call is one atomic statement between its call
    and its return, so a schedule is any sequence of the actions below, in any order the
    servers' own program counters allow. */
module Lease {
  import opened Common
  import opened Database

  // Where a server's tick stands.
  datatype Phase =
    | Idle                                           // waiting for the next tick
    | Captured                                       // `now` read, SELECT not yet run
    | Deciding(snapshot: Option<ClusterRow>)         // SELECT returned, branch not yet taken
    | Rereading                                      // acquire branch: second SELECT not yet run
    | Acquiring(term: int)                           // acquiring UPDATE not yet run
    | Renewing                                       // renewing UPDATE not yet run
    | Replying(acquire: bool, changed: Option<bool>) // UPDATE over (None: it never ran), reply due

  // `capturedAt`, `landed` and `ticks` are history: the true time of the last clock
  // capture, the captured time of this server's last write that changed the row, and the
  // number of ticks that reached their end.
  datatype Server = Server(phase: Phase, now: int, isLeader: bool, capturedAt: int, landed: Option<int>, ticks: nat)

  datatype Election = Election(winner: ServerId, term: int)

  datatype World = World(
    clock: int,                       // true time
    table: Option<ClusterRow>,
    servers: map<ServerId, Server>,
    elections: seq<Election>)         // every acquiring UPDATE that changed the row

  // skew: how far a server's clock may be from true time, either way.
  // delay: the longest true time from clock capture to the UPDATE landing; None: no bound.
  // timeout: the configured leader timeout, any value.
  datatype Params = Params(ids: set<ServerId>, skew: nat, delay: Option<nat>, timeout: int, rereadMayFail: bool) {
    predicate WellFormed() {
      "" !in ids
    }
  }

  datatype Action =
    | Advance(ms: nat)
    | Capture(id: ServerId, now: int)
    | Read(id: ServerId, ok: bool)
    | Decide(id: ServerId)
    | Reread(id: ServerId, ok: bool)
    | Write(id: ServerId, ok: bool)   // !ok: the statement failed and changed nothing
    | Reply(id: ServerId, ok: bool)   // !ok: the reply was lost, whatever the statement did

  // The branch taken on a snapshot: acquire, renew, or observe (None).
  function Branch(timeout: int, id: ServerId, now: int, snapshot: Option<ClusterRow>): Option<Phase> {
    match snapshot
    case None => Some(Rereading)
    case Some(state) =>
      if state.leaderId.None? || now - state.lastHeartbeat > timeout then Some(Rereading)
      else if state.leaderId == Some(id) then Some(Renewing)
      else None
  }

  // Clocks read times since the epoch and never run back.
  predicate LocallyEnabled(srv: Server, a: Action)
    requires !a.Advance?
  {
    match a
    case Capture(_, now) => srv.phase.Idle? && 0 <= now && srv.now <= now
    case Read(_, _) => srv.phase.Captured?
    case Decide(_) => srv.phase.Deciding?
    case Reread(_, _) => srv.phase.Rereading?
    case Write(_, _) => srv.phase.Acquiring? || srv.phase.Renewing?
    case Reply(_, _) => srv.phase.Replying?
  }

  // One server's step: its own state and the table.
  function LocalStep(timeout: int, clock: int, srv: Server, table: Option<ClusterRow>, a: Action)
    : (Server, Option<ClusterRow>)
    requires !a.Advance? && LocallyEnabled(srv, a)
  {
    match a
    case Capture(_, now) => (srv.(phase := Captured, now := now, capturedAt := clock), table)
    case Read(_, ok) => (srv.(phase := if ok then Deciding(SelectState(table)) else Idle), table)
    case Decide(id) =>
      (match Branch(timeout, id, srv.now, srv.phase.snapshot)
       case Some(next) => srv.(phase := next)
       case None => srv.(phase := Idle, isLeader := false, ticks := srv.ticks + 1), table)
    case Reread(_, ok) =>
      var state := if ok then SelectState(table) else None;
      (srv.(phase := Acquiring(if state.Some? then state.value.leaderTerm + 1 else 1)), table)
    case Write(id, ok) =>
      if !ok then (srv.(phase := Replying(srv.phase.Acquiring?, None)), table)
      else
        var (table', changed) :=
          if srv.phase.Acquiring? then AfterAcquire(table, id, srv.phase.term, srv.now)
          else AfterRenew(table, id, srv.now);
        (srv.(phase := Replying(srv.phase.Acquiring?, Some(changed)),
              landed := if changed then Some(srv.now) else srv.landed), table')
    case Reply(_, ok) =>
      var won := ok && srv.phase.changed == Some(true);
      (srv.(phase := Idle, ticks := srv.ticks + 1,
            isLeader := if srv.phase.acquire then srv.isLeader || won else won), table)
  }

  predicate Enabled(p: Params, w: World, a: Action) {
    a.Advance? || (
      && a.id in w.servers
      && LocallyEnabled(w.servers[a.id], a)
      && (a.Capture? ==> w.clock - p.skew <= a.now <= w.clock + p.skew)
      && (a.Reread? && !a.ok ==> p.rereadMayFail)
      && (a.Write? && a.ok && p.delay.Some? ==> w.clock <= w.servers[a.id].capturedAt + p.delay.value))
  }

  predicate Acquires(w: World, a: Action)
  {
    && a.Write? && a.ok && a.id in w.servers
    && w.servers[a.id].phase.Acquiring?
    && w.table.Some? && MayTakeOver(w.table.value, w.servers[a.id].now)
  }

  function Apply(p: Params, w: World, a: Action): World
    requires Enabled(p, w, a)
  {
    if a.Advance? then w.(clock := w.clock + a.ms)
    else
      var (srv, table) := LocalStep(p.timeout, w.clock, w.servers[a.id], w.table, a);
      World(w.clock, table, w.servers[a.id := srv],
            if Acquires(w, a) then w.elections + [Election(a.id, w.servers[a.id].phase.term)] else w.elections)
  }

  function Init(p: Params, clock: nat): World {
    World(clock, INITIAL_TABLE, map id | id in p.ids :: Server(Idle, 0, false, 0, None, 0), [])
  }

  predicate Valid(p: Params, w: World, run: seq<Action>)
    decreases |run|
  {
    run == [] || (Enabled(p, w, run[0]) && Valid(p, Apply(p, w, run[0]), run[1..]))
  }

  function Exec(p: Params, w: World, run: seq<Action>): World
    requires Valid(p, w, run)
    decreases |run|
  {
    if run == [] then w else Exec(p, Apply(p, w, run[0]), run[1..])
  }

  // Runs compose.
  lemma {:induction false} ExecConcat(p: Params, w: World, run: seq<Action>, more: seq<Action>)
    requires Valid(p, w, run)
    ensures Valid(p, w, run + more) <==> Valid(p, Exec(p, w, run), more)
    ensures Valid(p, w, run + more) ==> Exec(p, w, run + more) == Exec(p, Exec(p, w, run), more)
    decreases |run|
  {
    if run == [] {
      assert run + more == more;
    } else {
      assert (run + more)[1..] == run[1..] + more;
      ExecConcat(p, Apply(p, w, run[0]), run[1..], more);
    }
  }
}
