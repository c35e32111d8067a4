/** What every run of the lease protocol keeps, with no bound on delays: the row's heartbeat
    never goes back, and a landed write holds the row for its full lease. */
module LeaseInvariants {
  import opened Common
  import opened Database
  import opened Lease

  // A write that lands this fast makes the row too young for anyone who captured before it.
  predicate WritesInTime(p: Params) {
    p.delay.Some? && p.delay.value + 2 * p.skew <= TAKEOVER_AGE_MS
  }

  ghost predicate ServerOk(skew: nat, clock: int, row: ClusterRow, id: ServerId, srv: Server) {
    && 0 <= srv.now && srv.capturedAt - skew <= srv.now <= srv.capturedAt + skew
    && srv.capturedAt <= clock
    && (srv.phase.Deciding? ==> srv.phase.snapshot.Some? && srv.phase.snapshot.value.lastHeartbeat <= row.lastHeartbeat)
    && (srv.landed.Some? ==> 0 <= srv.landed.value <= srv.now && srv.landed.value <= row.lastHeartbeat)
    && (srv.landed.Some? && row.leaderId != Some(id) ==> srv.landed.value + TAKEOVER_AGE_MS < row.lastHeartbeat)
    && (srv.landed.Some? ==> srv.ticks > 0 || srv.phase.Replying?)
    && (row.leaderId == Some(id) ==> srv.landed == Some(row.lastHeartbeat))
  }

  ghost predicate RowOk(p: Params, row: ClusterRow) {
    && (row.leaderId.None? ==> row.lastHeartbeat == 0)
    && (row.leaderId.Some? ==> row.leaderId.value in p.ids)
  }

  ghost predicate Inv(p: Params, w: World) {
    && p.WellFormed() && w.servers.Keys == p.ids
    && 0 <= w.clock && w.table.Some? && RowOk(p, w.table.value)
    && forall id :: id in p.ids ==> ServerOk(p.skew, w.clock, w.table.value, id, w.servers[id])
  }

  // How one write may change the row: in place by its leader, or by a takeover that jumps
  // past the lease.
  ghost predicate RowAdvances(id: ServerId, row: ClusterRow, row': ClusterRow) {
    && row.lastHeartbeat <= row'.lastHeartbeat
    && (row' == row
        || (row'.leaderId == row.leaderId == Some(id))
        || (row'.leaderId == Some(id)
            && (row.leaderId.None? || row.lastHeartbeat + TAKEOVER_AGE_MS < row'.lastHeartbeat)))
  }

  lemma InitInv(p: Params, clock: nat)
    requires p.WellFormed()
    ensures Inv(p, Init(p, clock))
  {
  }

  // The stepping server: its own clauses survive, and the row advances.
  lemma StepOwner(p: Params, w: World, a: Action)
    requires Inv(p, w) && !a.Advance? && Enabled(p, w, a)
    ensures var w' := Apply(p, w, a);
            && w'.table.Some? && RowOk(p, w'.table.value)
            && RowAdvances(a.id, w.table.value, w'.table.value)
            && ServerOk(p.skew, w'.clock, w'.table.value, a.id, w'.servers[a.id])
  {
    var srv, row := w.servers[a.id], w.table.value;
    assert ServerOk(p.skew, w.clock, row, a.id, srv);
    hide Inv;
    if a.Write? && a.ok {
      StepWriter(p, w.clock, row, a.id, srv);
    }
  }

  lemma StepWriter(p: Params, clock: int, row: ClusterRow, id: ServerId, srv: Server)
    requires RowOk(p, row) && id in p.ids && (srv.phase.Acquiring? || srv.phase.Renewing?)
    requires ServerOk(p.skew, clock, row, id, srv)
    ensures var (table, changed) := if srv.phase.Acquiring? then AfterAcquire(Some(row), id, srv.phase.term, srv.now)
                                    else AfterRenew(Some(row), id, srv.now);
            && table.Some? && RowOk(p, table.value) && RowAdvances(id, row, table.value)
            && (changed ==> table.value.leaderId == Some(id) && table.value.lastHeartbeat == srv.now)
            && (!changed ==> table.value == row)
  {
  }

  // Everyone else: their clauses survive any advance of the row.
  lemma StepOthers(skew: nat, clock: int, row: ClusterRow, row': ClusterRow,
      writer: ServerId, id: ServerId, srv: Server)
    requires ServerOk(skew, clock, row, id, srv) && id != writer
    requires row.leaderId.None? ==> row.lastHeartbeat == 0
    requires RowAdvances(writer, row, row')
    ensures ServerOk(skew, clock, row', id, srv)
  {
  }

  lemma StepInv(p: Params, w: World, a: Action)
    requires Inv(p, w) && Enabled(p, w, a)
    ensures Inv(p, Apply(p, w, a))
    ensures w.table.value.lastHeartbeat <= Apply(p, w, a).table.value.lastHeartbeat
  {
    var w' := Apply(p, w, a);
    if a.Advance? {
      forall id | id in p.ids
        ensures ServerOk(p.skew, w'.clock, w'.table.value, id, w'.servers[id])
      {
        assert ServerOk(p.skew, w.clock, w.table.value, id, w.servers[id]);
      }
    } else {
      StepOwner(p, w, a);
      forall id | id in p.ids && id != a.id
        ensures ServerOk(p.skew, w'.clock, w'.table.value, id, w'.servers[id])
      {
        StepOthers(p.skew, w.clock, w.table.value, w'.table.value, a.id, id, w.servers[id]);
      }
    }
  }

  lemma {:induction false} RunInv(p: Params, w: World, run: seq<Action>)
    requires Inv(p, w) && Valid(p, w, run)
    ensures Inv(p, Exec(p, w, run))
    ensures w.table.value.lastHeartbeat <= Exec(p, w, run).table.value.lastHeartbeat
    decreases |run|
  {
    if run == [] {
    } else {
      StepInv(p, w, run[0]);
      RunInv(p, Apply(p, w, run[0]), run[1..]);
    }
  }

  // The row's heartbeat never decreases between any two points of any run, although the
  // renewing UPDATE carries no time guard.
  lemma HeartbeatNeverDecreases(p: Params, clock: nat, run: seq<Action>, more: seq<Action>)
    requires p.WellFormed() && Valid(p, Init(p, clock), run + more) && Valid(p, Init(p, clock), run)
    ensures var w, w' := Exec(p, Init(p, clock), run), Exec(p, Init(p, clock), run + more);
            && w.table.Some? && w'.table.Some?
            && w.table.value.lastHeartbeat <= w'.table.value.lastHeartbeat
  {
    var w0 := Init(p, clock);
    InitInv(p, clock);
    RunInv(p, w0, run);
    ExecConcat(p, w0, run, more);
    RunInv(p, Exec(p, w0, run), more);
  }

  // A server holds its lease from the landing of a write with captured time n until true
  // time n + 15000 - skew.
  ghost predicate InLease(p: Params, w: World, id: ServerId) {
    && id in w.servers && w.servers[id].landed.Some?
    && w.clock <= w.servers[id].landed.value + TAKEOVER_AGE_MS - p.skew
  }

  lemma LeaseNamesHolder(p: Params, w: World, id: ServerId)
    requires Inv(p, w) && InLease(p, w, id)
    ensures w.table.value.leaderId == Some(id)
  {
    var row := w.table.value;
    if row.leaderId.Some? {
      assert ServerOk(p.skew, w.clock, row, row.leaderId.value, w.servers[row.leaderId.value]);
    }
    assert ServerOk(p.skew, w.clock, row, id, w.servers[id]);
  }

  // In every run the row names whoever is inside its lease, so no two servers are.
  lemma LeaseExclusivity(p: Params, clock: nat, run: seq<Action>, a: ServerId, b: ServerId)
    requires p.WellFormed() && Valid(p, Init(p, clock), run)
    requires InLease(p, Exec(p, Init(p, clock), run), a)
    ensures Exec(p, Init(p, clock), run).table.Some?
    ensures Exec(p, Init(p, clock), run).table.value.leaderId == Some(a)
    ensures InLease(p, Exec(p, Init(p, clock), run), b) ==> a == b
  {
    InitInv(p, clock);
    RunInv(p, Init(p, clock), run);
    var w := Exec(p, Init(p, clock), run);
    LeaseNamesHolder(p, w, a);
    if InLease(p, w, b) {
      LeaseNamesHolder(p, w, b);
    }
  }

  lemma {:induction false} LandedGrows(p: Params, w: World, run: seq<Action>, id: ServerId)
    requires Inv(p, w) && Valid(p, w, run) && id in w.servers && w.servers[id].landed.Some?
    ensures var w' := Exec(p, w, run);
            && id in w'.servers && w'.servers[id].landed.Some?
            && w.servers[id].landed.value <= w'.servers[id].landed.value
    decreases |run|
  {
    if run == [] {
    } else {
      StepInv(p, w, run[0]);
      assert ServerOk(p.skew, w.clock, w.table.value, id, w.servers[id]);
      LandedGrows(p, Apply(p, w, run[0]), run[1..], id);
    }
  }

  // The same promise seen from the write itself: whatever happens afterwards, the row still
  // names the writer at every true time up to n + 15000 - skew.
  lemma WriteBuysLease(p: Params, w: World, id: ServerId, more: seq<Action>)
    requires Inv(p, w) && Valid(p, w, [Write(id, true)] + more)
    requires Apply(p, w, Write(id, true)).servers[id].phase.changed == Some(true)
    ensures var w' := Exec(p, w, [Write(id, true)] + more);
            && w'.table.Some?
            && (w'.clock <= w.servers[id].now + TAKEOVER_AGE_MS - p.skew ==> w'.table.value.leaderId == Some(id))
  {
    var write := Write(id, true);
    var run := [write] + more;
    assert run[1..] == more;
    var w1 := Apply(p, w, write);
    StepInv(p, w, write);
    RunInv(p, w1, more);
    assert w1.servers[id].landed == Some(w.servers[id].now);
    LandedGrows(p, w1, more, id);
    var w' := Exec(p, w1, more);
    if w'.clock <= w.servers[id].now + TAKEOVER_AGE_MS - p.skew {
      LeaseNamesHolder(p, w', id);
    }
  }
}
