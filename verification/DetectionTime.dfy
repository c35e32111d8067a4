/** How soon a server that has stopped beating is marked, when some server's sweeps keep pace. */
module DetectionTime {
  import opened Common
  import opened Database
  import opened Paces
  import opened FailureDetector

  // None of this server's beats runs any more.
  predicate Silent(run: seq<Action>, id: ServerId) {
    forall i :: 0 <= i < |run| ==> run[i] != LandBeat(id, true)
  }

  predicate SweepsOnTime(s: Pace, w: World) {
    && s.id in w.tasks
    && var t := w.tasks[s.id];
       && (t.sweeps > 0 || !t.sweep.Resting? ==> w.clock <= t.sweptAt + s.gap)
       && (t.sweep.Marking? ==> w.clock <= t.sweptAt + s.delay)
  }

  // A sweep captured after `deadline` marks the dead server, so as long as it is not marked
  // no earlier sweep than the one now due was.
  ghost predicate Watching(p: Params, s: Pace, dead: ServerId, w: World, deadline: int) {
    && AllTasksOk(p, w) && SweepsOnTime(s, w) && dead in w.rows
    && (w.rows[dead].isHealthy ==>
          && w.rows[dead].lastHeartbeat + p.timeout + p.skew <= deadline
          && (w.tasks[s.id].sweeps > 0 ==>
                w.tasks[s.id].sweptAt <= deadline + if w.tasks[s.id].sweep.Marking? then s.gap else 0))
  }

  lemma WatchingStep(p: Params, s: Pace, dead: ServerId, w: World, a: Action, deadline: int)
    requires Watching(p, s, dead, w, deadline) && Enabled(p, w, a) && KeepsSweeping(s, w, a)
    requires a != LandBeat(dead, true)
    ensures Watching(p, s, dead, Apply(p, w, a), deadline)
  {
    TasksStep(p, w, a);
    TasksAt(p, w, s.id);
    hide AllTasksOk;
  }

  lemma {:induction false} WatchingRun(
    p: Params, s: Pace, dead: ServerId, w: World, run: seq<Action>, deadline: int)
    requires Watching(p, s, dead, w, deadline) && Fulfils(p, Sweeps(s), w, run) && Silent(run, dead)
    ensures Watching(p, s, dead, Exec(p, w, run), deadline)
    decreases |run|
  {
    if run == [] {
    } else {
      WatchingStep(p, s, dead, w, run[0], deadline);
      assert forall i :: 0 <= i < |run[1..]| ==> run[1..][i] == run[i + 1];
      WatchingRun(p, s, dead, Apply(p, w, run[0]), run[1..], deadline);
    }
  }

  lemma {:induction false} OnTimeRun(p: Params, s: Pace, w: World, run: seq<Action>)
    requires AllTasksOk(p, w) && SweepsOnTime(s, w) && Fulfils(p, Sweeps(s), w, run)
    ensures AllTasksOk(p, Exec(p, w, run)) && SweepsOnTime(s, Exec(p, w, run))
    decreases |run|
  {
    if run == [] {
    } else {
      TasksStep(p, w, run[0]);
      OnTimeStep(p, s, w, run[0]);
      OnTimeRun(p, s, Apply(p, w, run[0]), run[1..]);
    }
  }

  lemma OnTimeStep(p: Params, s: Pace, w: World, a: Action)
    requires SweepsOnTime(s, w) && Enabled(p, w, a) && KeepsSweeping(s, w, a)
    ensures SweepsOnTime(s, Apply(p, w, a))
  {
  }

  // A beat of a server with a row, or its registration, is about to land.
  predicate BeatDue(w: World, id: ServerId) {
    id in w.tasks && w.tasks[id].pending.Some? && (id in w.rows || w.tasks[id].pending == Some(Registration))
  }

  function Beaten(p: Params, w: World, id: ServerId): (w': World)
    requires BeatDue(w, id)
  {
    Apply(p, w, LandBeat(id, true))
  }

  // The longest a heartbeat can look fresh to a sweep, in true time since it landed.
  function FreshFor(p: Params): nat {
    if p.timeout + 2 * p.skew < 0 then 0 else p.timeout + 2 * p.skew
  }

  function MarkingTime(p: Params, s: Pace): nat {
    FreshFor(p) + s.gap + OpenTime(s)
  }

  lemma BeatenIsWatched(p: Params, s: Pace, dead: ServerId, w: World)
    requires AllTasksOk(p, w) && SweepsOnTime(s, w) && BeatDue(w, dead)
    ensures Watching(p, s, dead, Beaten(p, w, dead), w.clock + FreshFor(p))
  {
    TasksStep(p, w, LandBeat(dead, true));
    TasksAt(p, w, dead);
    TasksAt(p, w, s.id);
    hide AllTasksOk;
  }

  // Unless its last beat landed no longer than the bound ago, a dead server is marked.
  predicate MarkedIfLate(p: Params, s: Pace, dead: ServerId, w: World, more: seq<Action>, bound: nat)
    requires Fulfils(p, Sweeps(s), w, more)
  {
    var w' := Exec(p, w, more);
    Silent(more, dead) && s.id in w'.tasks && w'.tasks[s.id].sweeps > 0 && w'.clock > w.clock + bound
    ==> dead in w'.rows && !w'.rows[dead].isHealthy
  }

  // In every run from start-up in which some server sweeps on time.
  ghost predicate MarkedBy(p: Params, s: Pace, bound: nat) {
    forall start, run, dead, more ::
      AtRest(start) && s.id in start.tasks && Fulfils(p, Sweeps(s), start, run) &&
      BeatDue(Exec(p, start, run), dead) && Fulfils(p, Sweeps(s), Beaten(p, Exec(p, start, run), dead), more) ==>
        MarkedIfLate(p, s, dead, Beaten(p, Exec(p, start, run), dead), more, bound)
  }

  lemma DeadIsMarked(
    p: Params, s: Pace, start: World, run: seq<Action>, dead: ServerId, more: seq<Action>, bound: nat)
    requires AtRest(start) && s.id in start.tasks && Fulfils(p, Sweeps(s), start, run)
    requires BeatDue(Exec(p, start, run), dead)
    requires Fulfils(p, Sweeps(s), Beaten(p, Exec(p, start, run), dead), more)
    requires MarkingTime(p, s) <= bound
    ensures MarkedIfLate(p, s, dead, Beaten(p, Exec(p, start, run), dead), more, bound)
  {
    OnTimeRun(p, s, start, run);
    BeatenIsWatched(p, s, dead, Exec(p, start, run));
    if Silent(more, dead) {
      WatchingRun(p, s, dead, Beaten(p, Exec(p, start, run), dead), more, Exec(p, start, run).clock + FreshFor(p));
    }
  }

  // ---------- The least ----------

  // The sweeper has just swept in vain; it waits its full gap and takes its time again.
  lemma LateSweep(p: Params, s: Pace, w: World) returns (run: seq<Action>)
    requires s.id in w.tasks && w.tasks[s.id].sweep.Resting? && w.tasks[s.id].sweeps > 0
    requires w.tasks[s.id].sweptAt == w.clock
    ensures Fulfils(p, Sweeps(s), w, run) && forall id :: Silent(run, id)
    ensures var w' := Exec(p, w, run);
            && w'.clock == w.clock + s.gap + OpenTime(s) && w'.rows == w.rows
            && s.id in w'.tasks && w'.tasks[s.id].sweeps > 0
  {
    var a1, a2, a3 := Advance(s.gap), CaptureSweep(s.id, w.clock + s.gap), Advance(OpenTime(s));
    var w1 := Apply(p, w, a1);
    var w2 := Apply(p, w1, a2);
    var w3 := Apply(p, w2, a3);
    assert Fulfils(p, Sweeps(s), w3, []) && Exec(p, w3, []) == w3;
    hide Fulfils, Exec;
    run := Prepend(p, Sweeps(s), w2, a3, []);
    run := Prepend(p, Sweeps(s), w1, a2, run);
    run := Prepend(p, Sweeps(s), w, a1, run);
    assert run == [a1, a2, a3];
  }

  // The dead server registers on a fast clock. The sweep before, or the last that still finds
  // that heartbeat fresh on its slow clock, leaves it alone.
  lemma LatestMark(p: Params, s: Pace, dead: ServerId)
    returns (start: World, run: seq<Action>, more: seq<Action>)
    requires dead != s.id
    ensures AtRest(start) && s.id in start.tasks && Fulfils(p, Sweeps(s), start, run)
    ensures BeatDue(Exec(p, start, run), dead)
    ensures Fulfils(p, Sweeps(s), Beaten(p, Exec(p, start, run), dead), more)
    ensures var w := Beaten(p, Exec(p, start, run), dead);
            var w' := Exec(p, w, more);
            && Silent(more, dead) && s.id in w'.tasks && w'.tasks[s.id].sweeps > 0
            && w'.clock == w.clock + MarkingTime(p, s) && dead in w'.rows && w'.rows[dead].isHealthy
  {
    var rest := Tasks(None, 0, 0, Resting, 0, 0);
    start := World(0, map[], map[], map[dead := rest, s.id := rest]);
    if p.timeout + 2 * p.skew < 0 {
      run := SweptFirst(p, s, dead, start);
      more := LateSweep(p, s, Beaten(p, Exec(p, start, run), dead));
    } else {
      run := RegistersOnly(p, s, dead, start);
      more := SweptInVain(p, s, dead, Beaten(p, Exec(p, start, run), dead));
    }
  }

  lemma SweptFirst(p: Params, s: Pace, dead: ServerId, start: World) returns (run: seq<Action>)
    requires dead != s.id
    requires var rest := Tasks(None, 0, 0, Resting, 0, 0);
             start == World(0, map[], map[], map[dead := rest, s.id := rest])
    ensures Fulfils(p, Sweeps(s), start, run) && BeatDue(Exec(p, start, run), dead)
    ensures var w := Beaten(p, Exec(p, start, run), dead);
            && w.clock == 0 && w.rows == map[dead := ServerRow(p.skew, true)]
            && s.id in w.tasks && w.tasks[s.id] == Tasks(None, 0, 0, Resting, 0, 1)
  {
    var a1, a2, a3 := CaptureSweep(s.id, 0), LandSweep(s.id, true, false), CaptureBeat(dead, Registration, p.skew);
    var w1 := Apply(p, start, a1);
    var w2 := Apply(p, w1, a2);
    var w3 := Apply(p, w2, a3);
    assert Fulfils(p, Sweeps(s), w3, []) && Exec(p, w3, []) == w3;
    hide Fulfils, Exec;
    run := Prepend(p, Sweeps(s), w2, a3, []);
    run := Prepend(p, Sweeps(s), w1, a2, run);
    run := Prepend(p, Sweeps(s), start, a1, run);
  }

  lemma RegistersOnly(p: Params, s: Pace, dead: ServerId, start: World) returns (run: seq<Action>)
    requires dead != s.id
    requires var rest := Tasks(None, 0, 0, Resting, 0, 0);
             start == World(0, map[], map[], map[dead := rest, s.id := rest])
    ensures Fulfils(p, Sweeps(s), start, run) && BeatDue(Exec(p, start, run), dead)
    ensures var w := Beaten(p, Exec(p, start, run), dead);
            && w.clock == 0 && w.rows == map[dead := ServerRow(p.skew, true)]
            && s.id in w.tasks && w.tasks[s.id] == Tasks(None, 0, 0, Resting, 0, 0)
  {
    var a := CaptureBeat(dead, Registration, p.skew);
    var w := Apply(p, start, a);
    assert Fulfils(p, Sweeps(s), w, []) && Exec(p, w, []) == w;
    run := Prepend(p, Sweeps(s), start, a, []);
  }

  lemma SweptInVain(p: Params, s: Pace, dead: ServerId, w: World) returns (run: seq<Action>)
    requires 0 <= p.timeout + 2 * p.skew
    requires w.clock == 0 && w.rows == map[dead := ServerRow(p.skew, true)]
    requires s.id in w.tasks && w.tasks[s.id] == Tasks(None, 0, 0, Resting, 0, 0)
    ensures Fulfils(p, Sweeps(s), w, run) && Silent(run, dead)
    ensures var w' := Exec(p, w, run);
            && w'.clock == MarkingTime(p, s) && w'.rows == w.rows
            && s.id in w'.tasks && w'.tasks[s.id].sweeps > 0
  {
    var look := FreshFor(p);
    var a1, a2, a3 := Advance(look), CaptureSweep(s.id, look - p.skew), LandSweep(s.id, true, false);
    var w1 := Apply(p, w, a1);
    var w2 := Apply(p, w1, a2);
    var w3 := Apply(p, w2, a3);
    assert w3.rows == w.rows;
    run := LateSweep(p, s, w3);
    assert Silent(run, dead);
    hide Fulfils, Exec;
    run := Prepend(p, Sweeps(s), w2, a3, run);
    run := Prepend(p, Sweeps(s), w1, a2, run);
    run := Prepend(p, Sweeps(s), w, a1, run);
  }

  // Completeness, exactly: since a dead server's last beat landed, MarkingTime is the least
  // bound by which it is marked, for every timeout, skew and pace of sweeps.
  lemma MarkingTimeIsLeast(p: Params, s: Pace, dead: ServerId, bound: nat)
    requires dead != s.id
    ensures MarkedBy(p, s, bound) <==> MarkingTime(p, s) <= bound
  {
    hide Fulfils, Exec, Beaten;
    if MarkingTime(p, s) <= bound {
      forall start, run, other, more
        | AtRest(start) && s.id in start.tasks && Fulfils(p, Sweeps(s), start, run) &&
          BeatDue(Exec(p, start, run), other) && Fulfils(p, Sweeps(s), Beaten(p, Exec(p, start, run), other), more)
        ensures MarkedIfLate(p, s, other, Beaten(p, Exec(p, start, run), other), more, bound)
      {
        DeadIsMarked(p, s, start, run, other, more, bound);
      }
    } else {
      var start, run, more := LatestMark(p, s, dead);
      assert !MarkedIfLate(p, s, dead, Beaten(p, Exec(p, start, run), dead), more, bound);
    }
  }
}
