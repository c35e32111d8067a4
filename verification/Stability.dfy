/** A punctual leader is never deposed, whatever the other servers do. */
module Stability {
  import opened Common
  import opened Database
  import opened Lease
  import opened LeaseInvariants
  import opened Paces

  function Max(a: int, b: int): int {
    if a < b then b else a
  }

  // No competitor may both find the lease expired and be able to take it.
  predicate LandsInTime(p: Params, c: Pace) {
    c.gap + OpenTime(c) + 2 * p.skew <= Max(p.timeout, TAKEOVER_AGE_MS)
  }

  // How long a punctual server's UPDATE can take to land.
  function LandingTime(p: Params, c: Pace): nat {
    if p.delay.Some? && p.delay.value < OpenTime(c) then p.delay.value else OpenTime(c)
  }

  // A competitor that saw the row before the leader's first UPDATE landed must not be able
  // to take it afterwards.
  predicate WinsInTime(p: Params, c: Pace) {
    LandingTime(p, c) + 2 * p.skew <= TAKEOVER_AGE_MS
  }

  // The leader must not find its own lease expired either, unless no time passes at all.
  predicate FastEnough(p: Params, c: Pace) {
    LandsInTime(p, c) && WinsInTime(p, c) && (c.gap == 0 || c.gap + 2 * p.skew <= p.timeout)
  }

  // Has this server already judged the lease expired, or will it on the snapshot in hand?
  predicate Competes(timeout: int, id: ServerId, srv: Server) {
    || srv.phase.Rereading? || srv.phase.Acquiring?
    || (srv.phase.Deciding? && Branch(timeout, id, srv.now, srv.phase.snapshot) == Some(Rereading))
  }

  // The leader's own tick: the row stays near its last capture, and it tries to acquire
  // only where that cannot match.
  ghost predicate Leads(p: Params, c: Pace, w: World)
    requires w.table.Some? && c.id in w.servers
  {
    var row, srv := w.table.value, w.servers[c.id];
    && row.leaderId == Some(c.id)
    && w.clock <= srv.capturedAt + c.gap
    && if InTick(srv) then
         && srv.capturedAt <= row.lastHeartbeat + p.skew + c.gap
         && w.clock <= srv.capturedAt + c.delay
         && (srv.phase.Rereading? || srv.phase.Acquiring? ==>
               srv.now <= row.lastHeartbeat + TAKEOVER_AGE_MS && c.gap == 0)
         && (srv.phase.Deciding? ==>
               srv.phase.snapshot.Some?
               && srv.phase.snapshot.value.leaderId == Some(c.id)
               && srv.phase.snapshot.value.lastHeartbeat == row.lastHeartbeat)
       else
         && srv.capturedAt <= row.lastHeartbeat + p.skew
         && (srv.phase.Replying? && !srv.phase.acquire ==> srv.phase.changed == Some(true))
  }

  // A competitor's captured time is too early for its UPDATE to match the row.
  ghost predicate RivalOk(p: Params, c: Pace, w: World, id: ServerId)
    requires w.table.Some? && id in w.servers
  {
    var srv := w.servers[id];
    && (Competes(p.timeout, id, srv) ==> srv.now <= w.table.value.lastHeartbeat + TAKEOVER_AGE_MS)
    && (srv.phase.Captured? ==> srv.now <= w.table.value.lastHeartbeat + c.gap + OpenTime(c) + 2 * p.skew)
  }

  ghost predicate Steady(p: Params, c: Pace, w: World) {
    && Inv(p, w) && c.id in w.servers && Leads(p, c, w)
    && forall id :: id in w.servers && id != c.id ==> RivalOk(p, c, w, id)
  }

  // How old the row can be while the leader is punctual.
  lemma SteadyClock(p: Params, c: Pace, w: World)
    requires Inv(p, w) && c.id in w.servers && Leads(p, c, w)
    ensures w.clock <= w.table.value.lastHeartbeat + p.skew + c.gap + OpenTime(c)
  {
    assert ServerOk(p.skew, w.clock, w.table.value, c.id, w.servers[c.id]);
  }

  // The leader's own step renews or waits.
  lemma LeaderOwnStep(p: Params, c: Pace, w: World, a: Action)
    requires FastEnough(p, c) && Inv(p, w) && c.id in w.servers && Leads(p, c, w)
    requires Enabled(p, w, a) && Keeps(c, w, a) && !a.Advance? && a.id == c.id
    ensures var w' := Apply(p, w, a);
            && w'.table.Some? && Leads(p, c, w')
            && w'.table.value.leaderTerm == w.table.value.leaderTerm && w'.elections == w.elections
  {
    assert ServerOk(p.skew, w.clock, w.table.value, c.id, w.servers[c.id]);
    hide Inv;
  }

  // Anyone else's leaves the row as it is.
  lemma LeaderOtherStep(p: Params, c: Pace, w: World, a: Action)
    requires Inv(p, w) && c.id in w.servers && Leads(p, c, w)
    requires Enabled(p, w, a) && !a.Advance? && a.id != c.id && RivalOk(p, c, w, a.id)
    ensures Apply(p, w, a).table == w.table && Apply(p, w, a).elections == w.elections
    ensures Leads(p, c, Apply(p, w, a))
  {
    hide Inv;
  }

  lemma LeaderStep(p: Params, c: Pace, w: World, a: Action)
    requires FastEnough(p, c) && Steady(p, c, w) && Enabled(p, w, a) && Keeps(c, w, a)
    requires Inv(p, Apply(p, w, a))
    ensures Leads(p, c, Apply(p, w, a))
    ensures Apply(p, w, a).table.value.leaderTerm == w.table.value.leaderTerm
    ensures Apply(p, w, a).elections == w.elections
  {
    if a.Advance? {
      assert ServerOk(p.skew, w.clock, w.table.value, c.id, w.servers[c.id]);
    } else if a.id == c.id {
      LeaderOwnStep(p, c, w, a);
    } else {
      LeaderOtherStep(p, c, w, a);
    }
  }

  // A competitor's own step: it captures, or judges what it has read.
  lemma RivalOwnStep(p: Params, c: Pace, w: World, a: Action)
    requires LandsInTime(p, c) && Steady(p, c, w) && Enabled(p, w, a) && !a.Advance? && a.id != c.id
    requires Apply(p, w, a).table == w.table
    ensures RivalOk(p, c, Apply(p, w, a), a.id)
  {
    assert RivalOk(p, c, w, a.id);
    SteadyClock(p, c, w);
    assert ServerOk(p.skew, w.clock, w.table.value, a.id, w.servers[a.id]);
    hide Leads, Inv;
  }

  lemma RivalStep(p: Params, c: Pace, w: World, a: Action, id: ServerId)
    requires FastEnough(p, c) && Steady(p, c, w) && Enabled(p, w, a)
    requires id in w.servers && id != c.id
    requires Inv(p, Apply(p, w, a)) && w.table.value.lastHeartbeat <= Apply(p, w, a).table.value.lastHeartbeat
    ensures RivalOk(p, c, Apply(p, w, a), id)
  {
    assert RivalOk(p, c, w, id);
    if !a.Advance? && a.id == id {
      LeaderOtherStep(p, c, w, a);
      RivalOwnStep(p, c, w, a);
    } else {
      hide Leads, Inv, Branch;
    }
  }

  lemma SteadyStep(p: Params, c: Pace, w: World, a: Action)
    requires FastEnough(p, c) && Steady(p, c, w) && Enabled(p, w, a) && Keeps(c, w, a)
    ensures Steady(p, c, Apply(p, w, a))
    ensures Apply(p, w, a).table.value.leaderTerm == w.table.value.leaderTerm
    ensures Apply(p, w, a).elections == w.elections
  {
    hide FastEnough, Leads, RivalOk;
    StepInv(p, w, a);
    LeaderStep(p, c, w, a);
    forall id | id in w.servers && id != c.id
      ensures RivalOk(p, c, Apply(p, w, a), id)
    {
      RivalStep(p, c, w, a, id);
    }
  }

  lemma {:induction false} SteadyRun(p: Params, c: Pace, w: World, run: seq<Action>)
    requires FastEnough(p, c) && Steady(p, c, w) && Punctual(p, c, w, run)
    ensures var w' := Exec(p, w, run);
            && Steady(p, c, w')
            && w'.table.value.leaderTerm == w.table.value.leaderTerm
            && w'.elections == w.elections
    decreases |run|
  {
    if run == [] {
    } else {
      SteadyStep(p, c, w, run[0]);
      SteadyRun(p, c, Apply(p, w, run[0]), run[1..]);
    }
  }

  // ---------- Before it leads ----------

  predicate OnTime(c: Pace, w: World) {
    && c.id in w.servers
    && var srv := w.servers[c.id];
       && (srv.ticks > 0 || !srv.phase.Idle? ==> w.clock <= srv.capturedAt + c.gap)
       && (InTick(srv) ==> w.clock <= srv.capturedAt + c.delay)
  }

  // From start-up on: whenever the row names the server, its leadership is steady.
  ghost predicate Ready(p: Params, c: Pace, w: World) {
    Inv(p, w) && OnTime(c, w) && (w.table.value.leaderId == Some(c.id) ==> Steady(p, c, w))
  }

  // The UPDATE that elects it leaves no competitor with a captured time that could still
  // take the row, whatever that competitor has seen.
  lemma WinningIsSteady(p: Params, c: Pace, w: World)
    requires FastEnough(p, c) && Inv(p, w) && OnTime(c, w) && w.servers[c.id].phase.Acquiring?
    requires Enabled(p, w, Write(c.id, true)) && Acquires(w, Write(c.id, true))
    requires Inv(p, Apply(p, w, Write(c.id, true)))
    ensures Steady(p, c, Apply(p, w, Write(c.id, true)))
  {
    var w' := Apply(p, w, Write(c.id, true));
    assert ServerOk(p.skew, w.clock, w.table.value, c.id, w.servers[c.id]);
    forall id | id in w.servers && id != c.id
      ensures RivalOk(p, c, w', id)
    {
      assert ServerOk(p.skew, w.clock, w.table.value, id, w.servers[id]);
    }
  }

  lemma OnTimeStep(p: Params, c: Pace, w: World, a: Action)
    requires OnTime(c, w) && Enabled(p, w, a) && Keeps(c, w, a)
    ensures OnTime(c, Apply(p, w, a))
  {
  }

  lemma NewOwnerAcquired(p: Params, w: World, a: Action, id: ServerId)
    requires Inv(p, w) && Enabled(p, w, a)
    requires w.table.value.leaderId != Some(id)
    requires Apply(p, w, a).table.Some? && Apply(p, w, a).table.value.leaderId == Some(id)
    ensures a == Write(id, true) && w.servers[id].phase.Acquiring? && Acquires(w, a)
  {
    hide Inv;
  }

  lemma ReadyStep(p: Params, c: Pace, w: World, a: Action)
    requires FastEnough(p, c) && Ready(p, c, w) && Enabled(p, w, a) && Keeps(c, w, a)
    ensures Ready(p, c, Apply(p, w, a))
  {
    hide FastEnough, Steady, Keeps;
    StepInv(p, w, a);
    OnTimeStep(p, c, w, a);
    if w.table.value.leaderId == Some(c.id) {
      SteadyStep(p, c, w, a);
    } else if Apply(p, w, a).table.value.leaderId == Some(c.id) {
      NewOwnerAcquired(p, w, a, c.id);
      WinningIsSteady(p, c, w);
    }
  }

  lemma {:induction false} ReadyRun(p: Params, c: Pace, w: World, run: seq<Action>)
    requires FastEnough(p, c) && Ready(p, c, w) && Punctual(p, c, w, run)
    ensures Ready(p, c, Exec(p, w, run))
    decreases |run|
  {
    if run == [] {
    } else {
      ReadyStep(p, c, w, run[0]);
      ReadyRun(p, c, Apply(p, w, run[0]), run[1..]);
    }
  }

  predicate Names(w: World, id: ServerId) {
    w.table.Some? && w.table.value.leaderId == Some(id)
  }

  predicate SameLeadership(w: World, w': World, id: ServerId) {
    Names(w, id) && Names(w', id) && w'.table.value.leaderTerm == w.table.value.leaderTerm
  }

  // ---------- Its flag ----------

  // No reply to this server's UPDATEs is lost.
  predicate Heard(run: seq<Action>, id: ServerId) {
    forall i :: 0 <= i < |run| ==> run[i] != Reply(id, false)
  }

  // Up, or about to be.
  predicate FlagUp(srv: Server) {
    srv.isLeader || srv.phase == Replying(true, Some(true))
  }

  predicate FlagOk(c: Pace, w: World) {
    c.id in w.servers && (Names(w, c.id) ==> FlagUp(w.servers[c.id]))
  }

  lemma FlagStep(p: Params, c: Pace, w: World, a: Action)
    requires Ready(p, c, w) && FlagOk(c, w) && Enabled(p, w, a) && Keeps(c, w, a) && a != Reply(c.id, false)
    ensures FlagOk(c, Apply(p, w, a))
  {
    if Names(Apply(p, w, a), c.id) && !Names(w, c.id) {
      NewOwnerAcquired(p, w, a, c.id);
    }
    hide Inv;
  }

  lemma {:induction false} FlagRun(p: Params, c: Pace, w: World, run: seq<Action>)
    requires FastEnough(p, c) && Ready(p, c, w) && FlagOk(c, w) && Punctual(p, c, w, run) && Heard(run, c.id)
    ensures FlagOk(c, Exec(p, w, run))
    decreases |run|
  {
    if run == [] {
    } else {
      FlagStep(p, c, w, run[0]);
      ReadyStep(p, c, w, run[0]);
      assert forall i :: 0 <= i < |run[1..]| ==> run[1..][i] == run[i + 1];
      FlagRun(p, c, Apply(p, w, run[0]), run[1..]);
    }
  }

  // In every run from start-up in which it is punctual, from any point at which the row names
  // it no continuation deposes it: same leader, same term, and nobody elected. Its flag is up
  // all the while if its replies arrive.
  lemma PunctualLeaderIsNeverDeposed(p: Params, c: Pace, clock: nat, run: seq<Action>, more: seq<Action>)
    requires p.WellFormed() && c.id in p.ids && FastEnough(p, c)
    requires Punctual(p, c, Init(p, clock), run) && Punctual(p, c, Exec(p, Init(p, clock), run), more)
    requires Names(Exec(p, Init(p, clock), run), c.id)
    ensures var w := Exec(p, Init(p, clock), run);
            var w' := Exec(p, w, more);
            && SameLeadership(w, w', c.id) && w'.elections == w.elections
            && c.id in w'.servers
            && (Heard(run, c.id) && Heard(more, c.id) ==> FlagUp(w.servers[c.id]) && FlagUp(w'.servers[c.id]))
  {
    hide Inv, Leads, RivalOk, FastEnough, FlagUp, Steady;
    InitReady(p, c, clock);
    var w := Exec(p, Init(p, clock), run);
    ReadyRun(p, c, Init(p, clock), run);
    SteadyRun(p, c, w, more);
    SteadyNames(p, c, Exec(p, w, more));
    if Heard(run, c.id) && Heard(more, c.id) {
      FlagRun(p, c, Init(p, clock), run);
      FlagRun(p, c, w, more);
    }
  }

  lemma InitReady(p: Params, c: Pace, clock: nat)
    requires p.WellFormed() && c.id in p.ids
    ensures Ready(p, c, Init(p, clock)) && FlagOk(c, Init(p, clock))
  {
    InitInv(p, clock);
  }

  lemma SteadyNames(p: Params, c: Pace, w: World)
    requires Steady(p, c, w)
    ensures Names(w, c.id) && c.id in w.servers
  {
  }
}
