/** How long a landed write holds the row, exactly. */
module LeaseLengths {
  import opened Common
  import opened Database
  import opened Lease
  import opened LeaseInvariants
  import opened LeaseRuns

  // With timely writes a competitor must have seen the lease expired by the configured
  // timeout; with slow ones only the UPDATE's own age guard is left.
  function LeaseLength(p: Params): int {
    if WritesInTime(p) && p.timeout > TAKEOVER_AGE_MS then p.timeout else TAKEOVER_AGE_MS
  }

  // An attempt on an owned row either misses it or was made past the timeout; a snapshot in
  // hand is current, or too old to matter.
  ghost predicate AttemptOk(p: Params, row: ClusterRow, srv: Server) {
    row.leaderId.Some? && WritesInTime(p) ==>
      match srv.phase
      case Deciding(snapshot) =>
        || srv.now <= row.lastHeartbeat + TAKEOVER_AGE_MS
        || (snapshot.Some? && snapshot.value.leaderId.Some? && snapshot.value.lastHeartbeat == row.lastHeartbeat)
      case Rereading => srv.now <= row.lastHeartbeat + TAKEOVER_AGE_MS || srv.now > row.lastHeartbeat + p.timeout
      case Acquiring(_) => srv.now <= row.lastHeartbeat + TAKEOVER_AGE_MS || srv.now > row.lastHeartbeat + p.timeout
      case _ => true
  }

  ghost predicate HoldsLease(p: Params, row: ClusterRow, id: ServerId, srv: Server) {
    srv.landed.Some? && row.leaderId != Some(id) ==> srv.landed.value + LeaseLength(p) < row.lastHeartbeat
  }

  ghost predicate LengthInv(p: Params, w: World) {
    && Inv(p, w)
    && forall id :: id in w.servers ==>
         AttemptOk(p, w.table.value, w.servers[id]) && HoldsLease(p, w.table.value, id, w.servers[id])
  }

  // What the stepping server does to itself and to the row.
  lemma OwnStep(p: Params, w: World, a: Action)
    requires LengthInv(p, w) && Enabled(p, w, a) && !a.Advance? && Inv(p, Apply(p, w, a))
    ensures var row, row', srv' := w.table.value, Apply(p, w, a).table.value, Apply(p, w, a).servers[a.id];
            && AttemptOk(p, row', srv') && HoldsLease(p, row', a.id, srv')
            && (row' != row ==>
                  row'.leaderId == Some(a.id) && row'.lastHeartbeat == w.servers[a.id].now && a.Write? && a.ok)
            && (row'.leaderId != row.leaderId && row.leaderId.Some? ==>
                  row.lastHeartbeat + LeaseLength(p) < row'.lastHeartbeat)
  {
    var srv := w.servers[a.id];
    assert AttemptOk(p, w.table.value, srv) && HoldsLease(p, w.table.value, a.id, srv);
    assert ServerOk(p.skew, w.clock, w.table.value, a.id, srv);
    assert w.table.value.leaderId != Some("");
    hide Inv;
  }

  // What a write does to everyone else: their attempts captured before it landed.
  lemma OthersStep(p: Params, clock: int, writer: Server, row: ClusterRow, row': ClusterRow, id: ServerId, srv: Server)
    requires AttemptOk(p, row, srv) && HoldsLease(p, row, id, srv) && ServerOk(p.skew, clock, row, id, srv)
    requires row.leaderId.None? ==> row.lastHeartbeat == 0
    requires row.lastHeartbeat <= row'.lastHeartbeat && row'.leaderId.Some? && row'.leaderId != Some(id)
    requires row'.lastHeartbeat == writer.now && writer.capturedAt - p.skew <= writer.now
    requires p.delay.Some? ==> clock <= writer.capturedAt + p.delay.value
    requires row'.leaderId != row.leaderId && row.leaderId.Some? ==>
      row.lastHeartbeat + LeaseLength(p) < row'.lastHeartbeat
    ensures AttemptOk(p, row', srv) && HoldsLease(p, row', id, srv)
  {
  }

  lemma LengthStep(p: Params, w: World, a: Action)
    requires LengthInv(p, w) && Enabled(p, w, a)
    ensures LengthInv(p, Apply(p, w, a))
  {
    var w' := Apply(p, w, a);
    StepInv(p, w, a);
    if !a.Advance? {
      OwnStep(p, w, a);
      assert ServerOk(p.skew, w.clock, w.table.value, a.id, w.servers[a.id]);
    }
    forall id | id in w'.servers
      ensures AttemptOk(p, w'.table.value, w'.servers[id]) && HoldsLease(p, w'.table.value, id, w'.servers[id])
    {
      assert AttemptOk(p, w.table.value, w.servers[id]) && HoldsLease(p, w.table.value, id, w.servers[id]);
      if w'.table != w.table && id != a.id {
        assert ServerOk(p.skew, w.clock, w.table.value, id, w.servers[id]);
        OthersStep(p, w.clock, w.servers[a.id], w.table.value, w'.table.value, id, w.servers[id]);
      }
    }
  }

  lemma {:induction false} LengthRun(p: Params, w: World, run: seq<Action>)
    requires LengthInv(p, w) && Valid(p, w, run)
    ensures LengthInv(p, Exec(p, w, run))
    decreases |run|
  {
    if run == [] {
    } else {
      LengthStep(p, w, run[0]);
      LengthRun(p, Apply(p, w, run[0]), run[1..]);
    }
  }

  // In every state of every run, whoever's last landed write is at most `length` old by true
  // time is still named by the row.
  ghost predicate LeaseLasts(p: Params, length: int) {
    forall clock: nat, run, id ::
      Valid(p, Init(p, clock), run) && id in p.ids ==> Honoured(Exec(p, Init(p, clock), run), id, length)
  }

  predicate Honoured(w: World, id: ServerId, length: int) {
    id in w.servers && w.servers[id].landed.Some? && w.clock <= w.servers[id].landed.value + length ==>
      w.table.Some? && w.table.value.leaderId == Some(id)
  }

  lemma LengthHonoured(p: Params, w: World, id: ServerId, length: int)
    requires LengthInv(p, w) && id in w.servers && length <= LeaseLength(p) - p.skew
    ensures Honoured(w, id, length)
  {
    var row := w.table.value;
    assert ServerOk(p.skew, w.clock, row, id, w.servers[id]) && HoldsLease(p, row, id, w.servers[id]);
    if row.leaderId.Some? {
      assert ServerOk(p.skew, w.clock, row, row.leaderId.value, w.servers[row.leaderId.value]);
    }
  }

  // A competitor with a fast clock looks at the first instant the lease has run out.
  lemma TakenAtExpiry(p: Params, a: ServerId, b: ServerId) returns (run: seq<Action>)
    requires p.WellFormed() && a in p.ids && b in p.ids && a != b
    requires p.timeout <= LeaseLength(p)
    ensures Valid(p, Init(p, 0), run)
    ensures !Honoured(Exec(p, Init(p, 0), run), a, LeaseLength(p) - p.skew + 1)
  {
    var w := Init(p, 0);
    assert Valid(p, w, []) && Exec(p, w, []) == w;
    hide Valid, Exec;
    run := Attempt(p, w, [], a, p.skew, true);
    run := Win(p, w, run, a);
    run := Wait(p, w, run, LeaseLength(p) + 1);
    run := Attempt(p, w, run, b, p.skew + LeaseLength(p) + 1, true);
    run := Win(p, w, run, b);
  }

  // Both candidates saw an unowned row; the older capture lands first and is overrun.
  lemma TakenByStaleRead(p: Params, a: ServerId, b: ServerId) returns (clock: nat, run: seq<Action>)
    requires p.WellFormed() && a in p.ids && b in p.ids && a != b
    requires !WritesInTime(p)
    ensures Valid(p, Init(p, clock), run)
    ensures !Honoured(Exec(p, Init(p, clock), run), a, TAKEOVER_AGE_MS - p.skew + 1)
  {
    var n: nat, late: nat := p.skew, TAKEOVER_AGE_MS + 1;
    clock := if 2 * p.skew < late then 2 * p.skew else late;
    var w := Init(p, clock);
    assert Valid(p, w, []) && Exec(p, w, []) == w;
    hide Valid, Exec;
    run := Attempt(p, w, [], a, n, true);
    run := Wait(p, w, run, late - clock);
    run := Attempt(p, w, run, b, n + late, true);
    run := Win(p, w, run, a);
    run := Win(p, w, run, b);
  }

  // The lease, exactly: any skew, any delay bound or none, any timeout.
  lemma LeaseLastsExactly(p: Params, a: ServerId, b: ServerId, length: int)
    requires p.WellFormed() && a in p.ids && b in p.ids && a != b
    ensures LeaseLasts(p, length) <==> length <= LeaseLength(p) - p.skew
  {
    if length <= LeaseLength(p) - p.skew {
      forall clock: nat, run, id | Valid(p, Init(p, clock), run) && id in p.ids
        ensures Honoured(Exec(p, Init(p, clock), run), id, length)
      {
        InitInv(p, clock);
        LengthRun(p, Init(p, clock), run);
        LengthHonoured(p, Exec(p, Init(p, clock), run), id, length);
      }
    } else if p.timeout <= LeaseLength(p) {
      var run := TakenAtExpiry(p, a, b);
      assert !Honoured(Exec(p, Init(p, 0), run), a, length);
    } else {
      var clock, run := TakenByStaleRead(p, a, b);
      assert !Honoured(Exec(p, Init(p, clock), run), a, length);
    }
  }
}
