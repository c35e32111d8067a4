/** The failure detector: heartbeats, registrations and timeout sweeps of every server,
    interleaved statement by statement over the shared tables. */
module FailureDetector {
  import opened Common
  import opened Database
  import opened Paces

  // A write of this server's own row on its way to the database.
  datatype Beat = Heartbeat | Registration

  datatype Sweep = Resting | Marking(cutoff: int) | Deactivating

  // One server's two background tasks. `now` and `capturedAt` are the last beat's captured
  // and true times; `sweptAt` is the true time the last sweep captured its clock, and `sweeps`
  // counts the sweeps that have run.
  datatype Tasks = Tasks(
    pending: Option<Beat>, now: int, capturedAt: int, sweep: Sweep, sweptAt: int, sweeps: nat)

  datatype World = World(clock: int, rows: ServerTable, agents: AgentTable, tasks: map<ServerId, Tasks>)

  datatype Params = Params(skew: nat, timeout: int)

  datatype Action =
    | Advance(ms: nat)
    | CaptureBeat(id: ServerId, kind: Beat, now: int)
    | LandBeat(id: ServerId, ok: bool)                  // !ok: the statement never ran
    | CaptureSweep(id: ServerId, now: int)
    | LandSweep(id: ServerId, ran: bool, replied: bool) // an error reply skips the second statement
    | LandDeactivate(id: ServerId, ran: bool)
    | Shutdown(id: ServerId)

  predicate Enabled(p: Params, w: World, a: Action) {
    a.Advance? || (a.id in w.tasks && (
      var t := w.tasks[a.id];
      match a
      case Advance(_) => true
      case CaptureBeat(_, _, now) => t.pending.None? && t.now <= now && w.clock - p.skew <= now <= w.clock + p.skew
      case LandBeat(_, _) => t.pending.Some?
      case CaptureSweep(_, now) => t.sweep.Resting? && w.clock - p.skew <= now <= w.clock + p.skew
      case LandSweep(_, _, _) => t.sweep.Marking?
      case LandDeactivate(_, _) => t.sweep.Deactivating?
      case Shutdown(_) => true))
  }

  function Apply(p: Params, w: World, a: Action): World
    requires Enabled(p, w, a)
  {
    match a
    case Advance(ms) => w.(clock := w.clock + ms)
    case CaptureBeat(id, kind, now) =>
      w.(tasks := w.tasks[id := w.tasks[id].(pending := Some(kind), now := now, capturedAt := w.clock)])
    case LandBeat(id, ok) =>
      var t := w.tasks[id];
      var rows := if !ok then w.rows
                  else if t.pending.value.Registration? then AfterRegister(w.rows, id, t.now)
                  else AfterHeartbeat(w.rows, id, t.now);
      w.(rows := rows, tasks := w.tasks[id := t.(pending := None)])
    case CaptureSweep(id, now) =>
      w.(tasks := w.tasks[id := w.tasks[id].(sweep := Marking(now - p.timeout), sweptAt := w.clock)])
    case LandSweep(id, ran, replied) =>
      var t := w.tasks[id];
      w.(rows := if ran then AfterSweep(w.rows, t.sweep.cutoff) else w.rows,
         tasks := w.tasks[id := t.(sweep := if ran && replied then Deactivating else Resting,
                                   sweeps := if ran then t.sweeps + 1 else t.sweeps)])
    case LandDeactivate(id, ran) =>
      w.(agents := if ran then AfterDeactivate(w.agents, w.rows) else w.agents,
         tasks := w.tasks[id := w.tasks[id].(sweep := Resting)])
    case Shutdown(id) => w.(rows := AfterShutdown(w.rows, id))
  }

  predicate Valid(p: Params, w: World, run: seq<Action>)
    decreases |run|
  {
    run == [] || (Enabled(p, w, run[0]) && Valid(p, Apply(p, w, run[0]), run[1..]))
  }

  function Exec(p: Params, w: World, run: seq<Action>): World
    requires Valid(p, w, run)
    decreases |run|
  {
    if run == [] then w else Exec(p, Apply(p, w, run[0]), run[1..])
  }

  // What one server is held to: its beats, or its sweeps.
  datatype Promise = Beats(pace: Pace) | Sweeps(pace: Pace)

  // Beats are on time and run, and the server does not shut itself down.
  predicate KeepsBeating(c: Pace, w: World, a: Action) {
    c.id in w.tasks && (
      var t := w.tasks[c.id];
      match a
      case Advance(ms) =>
        && w.clock + ms <= t.capturedAt + c.gap
        && (t.pending.Some? ==> w.clock + ms <= t.capturedAt + c.delay)
      case LandBeat(id, ok) => id == c.id ==> ok
      case Shutdown(id) => id != c.id
      case _ => true)
  }

  // Sweeps are on time, from the first on, and their first statement runs.
  predicate KeepsSweeping(c: Pace, w: World, a: Action) {
    c.id in w.tasks && (
      var t := w.tasks[c.id];
      match a
      case Advance(ms) =>
        && (t.sweeps > 0 || !t.sweep.Resting? ==> w.clock + ms <= t.sweptAt + c.gap)
        && (t.sweep.Marking? ==> w.clock + ms <= t.sweptAt + c.delay)
      case LandSweep(id, ran, _) => id == c.id ==> ran
      case _ => true)
  }

  predicate Keeps(c: Promise, w: World, a: Action) {
    match c
    case Beats(pace) => KeepsBeating(pace, w, a)
    case Sweeps(pace) => KeepsSweeping(pace, w, a)
  }

  predicate Fulfils(p: Params, c: Promise, w: World, run: seq<Action>)
    ensures Fulfils(p, c, w, run) ==> Valid(p, w, run)
    decreases |run|
  {
    run == [] || (Enabled(p, w, run[0]) && Keeps(c, w, run[0]) && Fulfils(p, c, Apply(p, w, run[0]), run[1..]))
  }

  // Captured times are within the skew of the true times of their captures.
  predicate TasksOk(p: Params, w: World, t: Tasks) {
    && (t.sweep.Marking? ==> t.sweptAt - p.skew <= t.sweep.cutoff + p.timeout <= w.clock + p.skew)
    && (t.pending.Some? ==> t.capturedAt - p.skew <= t.now <= t.capturedAt + p.skew && t.capturedAt <= w.clock)
    && (t.sweeps > 0 || !t.sweep.Resting? ==> t.sweptAt <= w.clock)
  }

  ghost predicate AllTasksOk(p: Params, w: World) {
    forall id :: id in w.tasks ==> TasksOk(p, w, w.tasks[id])
  }

  lemma TasksStep(p: Params, w: World, a: Action)
    requires AllTasksOk(p, w) && Enabled(p, w, a)
    ensures AllTasksOk(p, Apply(p, w, a))
  {
    var w' := Apply(p, w, a);
    forall id | id in w'.tasks
      ensures TasksOk(p, w', w'.tasks[id])
    {
      assert TasksOk(p, w, w.tasks[id]);
    }
  }

  // Start-up: no task has done anything yet.
  predicate AtRest(w: World) {
    forall id :: id in w.tasks ==>
      w.tasks[id].pending.None? && w.tasks[id].sweep.Resting? && w.tasks[id].sweeps == 0
  }

  lemma {:induction false} TasksRun(p: Params, w: World, run: seq<Action>)
    requires AllTasksOk(p, w) && Valid(p, w, run)
    ensures AllTasksOk(p, Exec(p, w, run))
    decreases |run|
  {
    if run == [] {
    } else {
      TasksStep(p, w, run[0]);
      TasksRun(p, Apply(p, w, run[0]), run[1..]);
    }
  }

  ghost predicate Alive(p: Params, c: Pace, w: World) {
    && c.id in w.tasks && c.id in w.rows && w.rows[c.id].isHealthy
    && (var t, heartbeat := w.tasks[c.id], w.rows[c.id].lastHeartbeat;
        && t.capturedAt - p.skew <= t.now
        && if t.pending.Some?
           then t.capturedAt <= heartbeat + p.skew + c.gap && w.clock <= t.capturedAt + OpenTime(c)
           else heartbeat == t.now && w.clock <= t.capturedAt + c.gap)
    && AllTasksOk(p, w)
  }

  // The sweep's timeout outlasts the age a punctual server's heartbeat can reach.
  predicate TimeoutOutlasts(p: Params, c: Pace) {
    c.gap + OpenTime(c) + 2 * p.skew <= p.timeout
  }

  ghost predicate ActiveAgentsKept(w: World, w': World, id: ServerId) {
    forall agent :: agent in w.agents && w.agents[agent] == AgentRow(id, true) ==>
      agent in w'.agents && w'.agents[agent] == AgentRow(id, true)
  }

  lemma AliveStep(p: Params, c: Pace, w: World, a: Action)
    requires TimeoutOutlasts(p, c) && Alive(p, c, w) && Enabled(p, w, a) && KeepsBeating(c, w, a)
    ensures Alive(p, c, Apply(p, w, a)) && ActiveAgentsKept(w, Apply(p, w, a), c.id)
  {
    TasksStep(p, w, a);
    hide AllTasksOk;
    if a.LandSweep? {
      TasksAt(p, w, a.id);
    }
  }

  lemma TasksAt(p: Params, w: World, id: ServerId)
    requires AllTasksOk(p, w) && id in w.tasks
    ensures TasksOk(p, w, w.tasks[id])
  {
  }

  lemma {:induction false} AliveRun(p: Params, c: Pace, w: World, run: seq<Action>)
    requires TimeoutOutlasts(p, c) && Alive(p, c, w) && Fulfils(p, Beats(c), w, run)
    ensures Alive(p, c, Exec(p, w, run)) && ActiveAgentsKept(w, Exec(p, w, run), c.id)
    decreases |run|
  {
    if run == [] {
    } else {
      AliveStep(p, c, w, run[0]);
      AliveRun(p, c, Apply(p, w, run[0]), run[1..]);
    }
  }

  // A healthy server just after one of its beats has landed.
  ghost predicate JustBeat(p: Params, c: Pace, w: World) {
    && c.id in w.tasks && c.id in w.rows && w.rows[c.id].isHealthy
    && w.tasks[c.id].pending.None? && w.rows[c.id].lastHeartbeat == w.tasks[c.id].now
    && w.tasks[c.id].capturedAt - p.skew <= w.tasks[c.id].now
    && w.clock <= w.tasks[c.id].capturedAt + c.gap
    && AllTasksOk(p, w)
  }

  // A server's registration is about to land, and on time.
  predicate RegistrationDue(c: Pace, w: World) {
    && c.id in w.tasks && w.tasks[c.id].pending == Some(Registration)
    && w.clock <= w.tasks[c.id].capturedAt + c.gap
  }

  function Registered(p: Params, c: Pace, w: World): World
    requires RegistrationDue(c, w)
  {
    Apply(p, w, LandBeat(c.id, true))
  }

  // That is such a moment, in every run from start-up.
  lemma RegisteredIsJustBeat(p: Params, c: Pace, start: World, run: seq<Action>)
    requires AtRest(start) && Valid(p, start, run) && RegistrationDue(c, Exec(p, start, run))
    ensures JustBeat(p, c, Registered(p, c, Exec(p, start, run)))
  {
    TasksRun(p, start, run);
    var w := Exec(p, start, run);
    TasksAt(p, w, c.id);
    TasksStep(p, w, LandBeat(c.id, true));
  }

  ghost predicate Unsuspected(w: World, w': World, id: ServerId) {
    id in w'.rows && w'.rows[id].isHealthy && ActiveAgentsKept(w, w', id)
  }

  // In every run from start-up, from the server's registration on, no interleaving of
  // anyone's sweeps marks it, nor takes one of its agents away.
  ghost predicate NeverSuspected(p: Params, c: Pace) {
    forall start, run, more ::
      AtRest(start) && Valid(p, start, run) && RegistrationDue(c, Exec(p, start, run)) &&
      Fulfils(p, Beats(c), Registered(p, c, Exec(p, start, run)), more) ==>
        var w := Registered(p, c, Exec(p, start, run));
        Unsuspected(w, Exec(p, w, more), c.id)
  }

  lemma Prepend(p: Params, c: Promise, w: World, a: Action, rest: seq<Action>) returns (run: seq<Action>)
    requires Enabled(p, w, a) && Keeps(c, w, a) && Fulfils(p, c, Apply(p, w, a), rest)
    ensures run == [a] + rest
    ensures Fulfils(p, c, w, run) && Exec(p, w, run) == Exec(p, Apply(p, w, a), rest)
  {
    run := [a] + rest;
    assert run[1..] == rest;
  }

  // A cluster of one, its registration captured on a slow clock.
  lemma SlowRegistration(p: Params, c: Pace) returns (start: World, run: seq<Action>)
    ensures AtRest(start) && Valid(p, start, run) && RegistrationDue(c, Exec(p, start, run))
    ensures Registered(p, c, Exec(p, start, run)) ==
            World(p.skew, map[c.id := ServerRow(0, true)], map[], map[c.id := Tasks(None, 0, p.skew, Resting, 0, 0)])
  {
    start := World(p.skew, map[], map[], map[c.id := Tasks(None, 0, 0, Resting, 0, 0)]);
    run := [CaptureBeat(c.id, Registration, 0)];
    assert run[1..] == [];
    var w := Apply(p, start, run[0]);
    assert Exec(p, w, []) == w;
  }

  // The server captures a beat as late as it may and leaves it open as long as it may; just
  // before that beat lands, a sweep on a fast clock meets the row.
  lemma LateBeatIsSuspected(p: Params, c: Pace) returns (start: World, run: seq<Action>, more: seq<Action>)
    requires !TimeoutOutlasts(p, c)
    ensures AtRest(start) && Valid(p, start, run) && RegistrationDue(c, Exec(p, start, run))
    ensures Fulfils(p, Beats(c), Registered(p, c, Exec(p, start, run)), more)
    ensures var w' := Exec(p, Registered(p, c, Exec(p, start, run)), more);
            c.id in w'.rows && !w'.rows[c.id].isHealthy
  {
    start, run := SlowRegistration(p, c);
    more := LateBeat(p, c, Registered(p, c, Exec(p, start, run)));
  }

  lemma LateBeat(p: Params, c: Pace, w: World) returns (run: seq<Action>)
    requires !TimeoutOutlasts(p, c)
    requires w ==
      World(p.skew, map[c.id := ServerRow(0, true)], map[], map[c.id := Tasks(None, 0, p.skew, Resting, 0, 0)])
    ensures Fulfils(p, Beats(c), w, run)
    ensures c.id in Exec(p, w, run).rows && !Exec(p, w, run).rows[c.id].isHealthy
  {
    var a1, a2, a3 := Advance(c.gap), CaptureBeat(c.id, Heartbeat, p.skew + c.gap), Advance(OpenTime(c));
    var a4, a5 := CaptureSweep(c.id, c.gap + OpenTime(c) + 2 * p.skew), LandSweep(c.id, true, true);
    var w1 := Apply(p, w, a1);
    var w2 := Apply(p, w1, a2);
    var w3 := Apply(p, w2, a3);
    var w4 := Apply(p, w3, a4);
    assert Fulfils(p, Beats(c), Apply(p, w4, a5), []);
    hide Fulfils;
    run := Prepend(p, Beats(c), w4, a5, []);
    run := Prepend(p, Beats(c), w3, a4, run);
    run := Prepend(p, Beats(c), w2, a3, run);
    run := Prepend(p, Beats(c), w1, a2, run);
    run := Prepend(p, Beats(c), w, a1, run);
  }

  // Accuracy, exactly.
  lemma NeverSuspectedExactlyWhenTimeoutOutlasts(p: Params, c: Pace)
    ensures NeverSuspected(p, c) <==> TimeoutOutlasts(p, c)
  {
    hide Valid, Exec, Fulfils, Apply;
    if TimeoutOutlasts(p, c) {
      forall start, run, more
        | AtRest(start) && Valid(p, start, run) && RegistrationDue(c, Exec(p, start, run)) &&
          Fulfils(p, Beats(c), Registered(p, c, Exec(p, start, run)), more)
        ensures var w := Registered(p, c, Exec(p, start, run));
                Unsuspected(w, Exec(p, w, more), c.id)
      {
        RegisteredIsJustBeat(p, c, start, run);
        AliveRun(p, c, Registered(p, c, Exec(p, start, run)), more);
      }
    } else {
      var start, run, more := LateBeatIsSuspected(p, c);
      var w := Registered(p, c, Exec(p, start, run));
      assert !Unsuspected(w, Exec(p, w, more), c.id);
    }
  }

  // ---------- What one step does to a row and to an agent ----------

  // A row turns unhealthy exactly under a sweep whose cutoff is past its heartbeat, or at
  // its own server's shutdown.
  lemma OnlySweepOrShutdownMarks(p: Params, w: World, a: Action, id: ServerId)
    requires Enabled(p, w, a) && id in w.rows && w.rows[id].isHealthy
    ensures id in Apply(p, w, a).rows
    ensures !Apply(p, w, a).rows[id].isHealthy <==>
            || (a.LandSweep? && a.ran && w.rows[id].lastHeartbeat < w.tasks[a.id].sweep.cutoff)
            || a == Shutdown(id)
  {
  }

  // A row's time moves exactly when a beat of its own server lands, to the time that beat
  // captured; and only a registration makes a row.
  lemma OnlyBeatsMoveTime(p: Params, w: World, a: Action, id: ServerId)
    requires Enabled(p, w, a)
    ensures id in Apply(p, w, a).rows <==>
            id in w.rows || (a == LandBeat(id, true) && w.tasks[id].pending == Some(Registration))
    ensures id in Apply(p, w, a).rows ==>
            Apply(p, w, a).rows[id].lastHeartbeat ==
            if a == LandBeat(id, true) then w.tasks[id].now else w.rows[id].lastHeartbeat
  {
  }

  // An agent stays its server's, and stops being active exactly when some second statement
  // runs while its server's row is unhealthy. No step makes one active.
  lemma OnlyDeactivated(p: Params, w: World, a: Action, agent: AgentId)
    requires Enabled(p, w, a)
    ensures agent in Apply(p, w, a).agents <==> agent in w.agents
    ensures agent in w.agents ==>
            var before, after := w.agents[agent], Apply(p, w, a).agents[agent];
            && after.serverId == before.serverId
            && (after.active <==> (
                  && before.active
                  && !(a.LandDeactivate? && a.ran && before.serverId in w.rows && !w.rows[before.serverId].isHealthy)))
  {
  }

  // A sweep's cutoff is its captured time less the timeout, and its second statement follows
  // exactly a first one that ran and was heard of.
  lemma SweepsInOrder(p: Params, w: World, a: Action, id: ServerId)
    requires Enabled(p, w, a) && id in w.tasks
    ensures id in Apply(p, w, a).tasks
    ensures a.CaptureSweep? && a.id == id ==> Apply(p, w, a).tasks[id].sweep == Marking(a.now - p.timeout)
    ensures Apply(p, w, a).tasks[id].sweep.Deactivating? <==> (
              || a == LandSweep(id, true, true)
              || (w.tasks[id].sweep.Deactivating? && !(a.LandDeactivate? && a.id == id)))
  {
  }

  // A beat is on its way from its capture to its landing, with the time it captured.
  lemma BeatsInOrder(p: Params, w: World, a: Action, id: ServerId)
    requires Enabled(p, w, a) && id in w.tasks
    ensures id in Apply(p, w, a).tasks
    ensures var t, t' := w.tasks[id], Apply(p, w, a).tasks[id];
            && (a.CaptureBeat? && a.id == id ==> (t'.pending, t'.now, t'.capturedAt) == (Some(a.kind), a.now, w.clock))
            && (a.LandBeat? && a.id == id ==> (t'.pending, t'.now, t'.capturedAt) == (None, t.now, t.capturedAt))
            && (!((a.CaptureBeat? || a.LandBeat?) && a.id == id) ==>
                  (t'.pending, t'.now, t'.capturedAt) == (t.pending, t.now, t.capturedAt))
  {
  }

  // So over any run an inactive agent stays inactive.
  lemma {:induction false} InactiveStaysInactive(p: Params, w: World, run: seq<Action>, agent: AgentId)
    requires Valid(p, w, run) && agent in w.agents && !w.agents[agent].active
    ensures agent in Exec(p, w, run).agents
    ensures Exec(p, w, run).agents[agent] == w.agents[agent]
    decreases |run|
  {
    if run == [] {
    } else {
      OnlyDeactivated(p, w, run[0], agent);
      InactiveStaysInactive(p, Apply(p, w, run[0]), run[1..], agent);
    }
  }

  predicate Reregisters(p: Params, w: World, a: Action, id: ServerId)
    requires Enabled(p, w, a)
  {
    a.LandBeat? && a.id == id && a.ok && w.tasks[id].pending == Some(Registration)
  }

  // Stickiness: of all the statements only the server's own registration turns an
  // unhealthy row healthy; a heartbeat never does.
  lemma OnlyRegistrationHeals(p: Params, w: World, a: Action, id: ServerId)
    requires Enabled(p, w, a) && id in w.rows && !w.rows[id].isHealthy
    ensures id in Apply(p, w, a).rows
    ensures Apply(p, w, a).rows[id].isHealthy <==> Reregisters(p, w, a, id)
  {
  }

  // No registration of this server is pending or captured anywhere in the run.
  predicate NeverReregisters(w: World, run: seq<Action>, id: ServerId) {
    && (id in w.tasks ==> w.tasks[id].pending != Some(Registration))
    && forall i :: 0 <= i < |run| ==> !(run[i].CaptureBeat? && run[i].id == id && run[i].kind == Registration)
  }

  // So a server once marked stays marked for the rest of the run, however well it beats,
  // and the next full sweep of anyone leaves it without an active agent.
  lemma {:induction false} MarkedStaysMarked(p: Params, w: World, run: seq<Action>, id: ServerId)
    requires Valid(p, w, run) && id in w.rows && !w.rows[id].isHealthy
    requires NeverReregisters(w, run, id)
    ensures var w' := Exec(p, w, run);
            && id in w'.rows && !w'.rows[id].isHealthy
            && forall agent :: agent in w'.agents ==>
                 AfterDeactivate(w'.agents, w'.rows)[agent] != AgentRow(id, true)
    decreases |run|
  {
    if run == [] {
    } else {
      var a := run[0];
      OnlyRegistrationHeals(p, w, a, id);
      assert forall i :: 0 <= i < |run[1..]| ==> run[1..][i] == run[i + 1];
      MarkedStaysMarked(p, Apply(p, w, a), run[1..], id);
    }
  }
}
