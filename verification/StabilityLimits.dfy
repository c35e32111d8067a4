/** The other half of stability: a leader that is too slow loses its row or its term. */
module StabilityLimits {
  import opened Common
  import opened Database
  import opened Lease
  import opened Paces
  import opened Stability

  // In no run in which it is punctual does the row stop naming it, or move on to a new term,
  // once the row has named it.
  ghost predicate NeverDeposed(p: Params, c: Pace) {
    forall clock: nat, run, more ::
      Punctual(p, c, Init(p, clock), run) && Punctual(p, c, Exec(p, Init(p, clock), run), more) ==>
        KeepsLeading(p, c, Exec(p, Init(p, clock), run), more)
  }

  predicate KeepsLeading(p: Params, c: Pace, w: World, more: seq<Action>)
    requires Punctual(p, c, w, more)
  {
    Names(w, c.id) ==> SameLeadership(w, Exec(p, w, more), c.id)
  }

  // A leader elected at captured time 0 on a slow clock, its UPDATE landing at once.
  lemma FreshLeader(p: Params, c: Pace) returns (run: seq<Action>)
    requires p.WellFormed() && c.id in p.ids
    ensures Punctual(p, c, Init(p, p.skew), run)
    ensures var w := Exec(p, Init(p, p.skew), run);
            && w.clock == p.skew && w.table == Some(ClusterRow(Some(c.id), 1, 0))
            && w.servers == Init(p, p.skew).servers[c.id := Server(Idle, 0, true, p.skew, Some(0), 1)]
  {
    var w0 := Init(p, p.skew);
    assert Punctual(p, c, w0, []) && Exec(p, w0, []) == w0;
    hide Punctual, Exec;
    run := PunctualAttempt(p, c, w0, [], c.id, 0);
    run := PunctualWin(p, c, w0, run, c.id);
  }

  // ---------- Too slow to win ----------

  // Its first UPDATE takes as long as it may; a rival with a fast clock has seen the same
  // unowned row, and lands its own just after.
  lemma SlowWinnerIsDeposed(p: Params, c: Pace, rival: ServerId) returns (run: seq<Action>, more: seq<Action>)
    requires p.WellFormed() && c.id in p.ids && rival in p.ids && rival != c.id
    requires !WinsInTime(p, c)
    ensures Punctual(p, c, Init(p, p.skew), run) && Names(Exec(p, Init(p, p.skew), run), c.id)
    ensures Punctual(p, c, Exec(p, Init(p, p.skew), run), more)
    ensures Names(Exec(p, Exec(p, Init(p, p.skew), run), more), rival)
  {
    var w0 := Init(p, p.skew);
    assert Punctual(p, c, w0, []) && Exec(p, w0, []) == w0;
    hide Punctual, Exec;
    run := PunctualAttempt(p, c, w0, [], c.id, 0);
    run := PunctualExtend(p, c, w0, run, Advance(LandingTime(p, c)));
    run := PunctualAttempt(p, c, w0, run, rival, LandingTime(p, c) + 2 * p.skew);
    run := PunctualWin(p, c, w0, run, c.id);
    more := OneStep(p, c, Exec(p, w0, run), Write(rival, true));
  }

  lemma OneStep(p: Params, c: Pace, w: World, a: Action) returns (run: seq<Action>)
    requires Enabled(p, w, a) && Keeps(c, w, a)
    ensures Punctual(p, c, w, run) && Exec(p, w, run) == Apply(p, w, a)
  {
    run := PunctualExtend(p, c, w, [], a);
  }

  // ---------- Too slow for its rivals ----------

  // It waits its full gap, captures, and then leaves its renewal open as long as it may.
  lemma Stall(p: Params, c: Pace, w: World) returns (run: seq<Action>)
    requires c.id in w.servers && w.servers[c.id] == Server(Idle, 0, true, p.skew, Some(0), 1)
    requires w.clock == p.skew
    ensures Punctual(p, c, w, run)
    ensures Exec(p, w, run) == w.(clock := p.skew + c.gap + OpenTime(c),
      servers := w.servers[c.id := Server(Captured, p.skew + c.gap, true, p.skew + c.gap, Some(0), 1)])
  {
    assert Punctual(p, c, w, []) && Exec(p, w, []) == w;
    hide Punctual, Exec;
    run := PunctualExtend(p, c, w, [], Advance(c.gap));
    run := PunctualExtend(p, c, w, run, Capture(c.id, p.skew + c.gap));
    run := PunctualExtend(p, c, w, run, Advance(OpenTime(c)));
  }

  // One renewal too slow, and a competitor with a fast clock takes the row.
  lemma SlowLeaderIsDeposed(p: Params, c: Pace, rival: ServerId) returns (run: seq<Action>, more: seq<Action>)
    requires p.WellFormed() && c.id in p.ids && rival in p.ids && rival != c.id
    requires !LandsInTime(p, c)
    ensures Punctual(p, c, Init(p, p.skew), run) && Names(Exec(p, Init(p, p.skew), run), c.id)
    ensures Punctual(p, c, Exec(p, Init(p, p.skew), run), more)
    ensures Names(Exec(p, Exec(p, Init(p, p.skew), run), more), rival)
  {
    hide Punctual, Exec;
    run := FreshLeader(p, c);
    var w := Exec(p, Init(p, p.skew), run);
    more := Stall(p, c, w);
    more := PunctualAttempt(p, c, w, more, rival, c.gap + OpenTime(c) + 2 * p.skew);
    more := PunctualExtend(p, c, w, more, Write(rival, true));
  }

  // ---------- Too slow for itself ----------

  // The leader at its own clock's fast end, its last write still the one at time 0.
  predicate Lagging(p: Params, c: Pace, w: World) {
    && c.id != "" && c.id in w.servers && w.servers[c.id].phase.Idle? && w.servers[c.id].ticks > 0
    && w.servers[c.id].capturedAt == w.clock && 0 <= w.servers[c.id].now <= w.clock + p.skew && p.skew <= w.clock
    && w.table == Some(ClusterRow(Some(c.id), 1, 0))
  }

  // It waits its full gap and tries to acquire; too early still, the UPDATE misses.
  lemma MissedTick(p: Params, c: Pace, w: World, run: seq<Action>) returns (run': seq<Action>)
    requires Punctual(p, c, w, run) && Lagging(p, c, Exec(p, w, run)) && c.gap + 2 * p.skew > p.timeout
    requires Exec(p, w, run).clock + c.gap + p.skew <= TAKEOVER_AGE_MS
    ensures Punctual(p, c, w, run') && Lagging(p, c, Exec(p, w, run'))
    ensures Exec(p, w, run').clock == Exec(p, w, run).clock + c.gap
  {
    hide Punctual, Exec;
    var now := Exec(p, w, run).clock + c.gap + p.skew;
    run' := PunctualExtend(p, c, w, run, Advance(c.gap));
    run' := PunctualAttempt(p, c, w, run', c.id, now);
    run' := PunctualExtend(p, c, w, run', Write(c.id, true));
    run' := PunctualExtend(p, c, w, run', Reply(c.id, true));
  }

  // Tick after tick it renews nothing, until its own UPDATE matches and starts a new term.
  lemma {:induction false} LaggingLeaderReelectsItself(p: Params, c: Pace, w: World, run: seq<Action>)
    returns (run': seq<Action>)
    requires Punctual(p, c, w, run) && Lagging(p, c, Exec(p, w, run))
    requires 0 < c.gap && c.gap + 2 * p.skew > p.timeout
    ensures Punctual(p, c, w, run')
    ensures Exec(p, w, run').table.Some? && Exec(p, w, run').table.value.leaderTerm == 2
    decreases TAKEOVER_AGE_MS - Exec(p, w, run).clock
  {
    hide Punctual, Exec;
    var now := Exec(p, w, run).clock + c.gap + p.skew;
    if now <= TAKEOVER_AGE_MS {
      var missed := MissedTick(p, c, w, run);
      run' := LaggingLeaderReelectsItself(p, c, w, missed);
    } else {
      run' := PunctualExtend(p, c, w, run, Advance(c.gap));
      run' := PunctualAttempt(p, c, w, run', c.id, now);
      run' := PunctualExtend(p, c, w, run', Write(c.id, true));
    }
  }

  // Stability, exactly: any timeout, any skew, any delay bound, any pace.
  lemma NeverDeposedExactlyWhenFastEnough(p: Params, c: Pace, rival: ServerId)
    requires p.WellFormed() && c.id in p.ids && rival in p.ids && rival != c.id
    ensures NeverDeposed(p, c) <==> FastEnough(p, c)
  {
    hide Punctual, Exec, Init;
    if FastEnough(p, c) {
      forall clock: nat, run, more
        | Punctual(p, c, Init(p, clock), run) && Punctual(p, c, Exec(p, Init(p, clock), run), more)
        ensures KeepsLeading(p, c, Exec(p, Init(p, clock), run), more)
      {
        if Names(Exec(p, Init(p, clock), run), c.id) {
          PunctualLeaderIsNeverDeposed(p, c, clock, run, more);
        }
      }
    } else if !WinsInTime(p, c) {
      var run, more := SlowWinnerIsDeposed(p, c, rival);
      assert !KeepsLeading(p, c, Exec(p, Init(p, p.skew), run), more);
    } else if !LandsInTime(p, c) {
      var run, more := SlowLeaderIsDeposed(p, c, rival);
      assert !KeepsLeading(p, c, Exec(p, Init(p, p.skew), run), more);
    } else {
      var run := FreshLeader(p, c);
      var more := LaggingFromTheStart(p, c, Exec(p, Init(p, p.skew), run));
      assert !KeepsLeading(p, c, Exec(p, Init(p, p.skew), run), more);
    }
  }

  lemma LaggingFromTheStart(p: Params, c: Pace, w: World) returns (run: seq<Action>)
    requires Lagging(p, c, w) && 0 < c.gap && c.gap + 2 * p.skew > p.timeout
    ensures Punctual(p, c, w, run)
    ensures Exec(p, w, run).table.Some? && Exec(p, w, run).table.value.leaderTerm == 2
  {
    assert Punctual(p, c, w, []) && Exec(p, w, []) == w;
    run := LaggingLeaderReelectsItself(p, c, w, []);
  }
}
