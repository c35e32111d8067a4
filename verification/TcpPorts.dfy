/** The TCP port allocator: a first-fit loop of INSERTs over one shared table. */
module TcpPorts {
  import opened Common
  import opened Database

  // ---------- One caller ----------

  function FaultAt(faults: map<nat, Fault>, port: nat): Fault {
    if port in faults then faults[port] else NoFault
  }

  // A port the loop passes over: taken, or its INSERT did not report success.
  predicate Skipped(ports: PortTable, faults: map<nat, Fault>, port: nat) {
    port in ports || !FaultAt(faults, port).NoFault?
  }

  // Rows left behind by INSERTs that ran but whose replies were lost.
  function Leaked(ports: PortTable, faults: map<nat, Fault>, start: nat, end: nat, row: TcpPortRow): PortTable {
    map port: nat | start <= port < end && port !in ports && FaultAt(faults, port).ReplyLost? :: row
  }

  // The port found is the lowest in the range that is free and whose INSERT reports success;
  // None means there is no such port. Its row and those of lost replies are all that is new.
  ghost predicate Allocated(before: PortTable, after: PortTable, row: TcpPortRow, faults: map<nat, Fault>,
      start: nat, end: nat, found: Option<nat>)
  {
    match found
    case Some(port) =>
      && start <= port < end && !Skipped(before, faults, port)
      && (forall p :: start <= p < port ==> Skipped(before, faults, p))
      && after == (before + Leaked(before, faults, start, port, row))[port := row]
    case None =>
      && (forall p :: start <= p < end ==> Skipped(before, faults, p))
      && after == before + Leaked(before, faults, start, end, row)
  }

  method AllocateTcpPort(db: Db, tunnelId: string, serverId: ServerId, start: nat, end: nat, faults: map<nat, Fault>)
    returns (found: Option<nat>)
    modifies db`tcpPorts
    ensures Allocated(old(db.tcpPorts), db.tcpPorts, TcpPortRow(tunnelId, serverId), faults, start, end, found)
  {
    var row := TcpPortRow(tunnelId, serverId);
    var port := start;
    while port < end
      invariant start <= port && (port <= end || port == start)
      invariant forall p :: start <= p < port ==> Skipped(old(db.tcpPorts), faults, p)
      invariant db.tcpPorts == old(db.tcpPorts) + Leaked(old(db.tcpPorts), faults, start, port, row)
    {
      var ok := db.InsertTcpPort(port, row, FaultAt(faults, port));
      if ok {
        return Some(port);
      }
      port := port + 1;
    }
    found := None;
  }

  // With no faults at all: the lowest free port, or None exactly when the range is full,
  // and one row more or none.
  method AllocateWithoutFaults(db: Db, tunnelId: string, serverId: ServerId, start: nat, end: nat)
    returns (found: Option<nat>)
    modifies db`tcpPorts
    ensures found.None? <==> forall p :: start <= p < end ==> p in old(db.tcpPorts)
    ensures found.None? ==> db.tcpPorts == old(db.tcpPorts)
    ensures found.Some? ==>
      && start <= found.value < end && found.value !in old(db.tcpPorts)
      && (forall p :: start <= p < found.value ==> p in old(db.tcpPorts))
      && db.tcpPorts == old(db.tcpPorts)[found.value := TcpPortRow(tunnelId, serverId)]
  {
    ghost var before := db.tcpPorts;
    found := AllocateTcpPort(db, tunnelId, serverId, start, end, map[]);
    assert forall p :: p in before <==> Skipped(before, map[], p);
  }

  // ---------- Concurrent callers ----------

  // A call to allocate_tcp_port and what became of it.
  datatype Call = Trying(next: nat) | Holding(port: nat) | Exhausted | Released

  datatype Request = Request(row: TcpPortRow, start: nat, end: nat, state: Call)

  // `leaked` is history: ports whose INSERT ran with its reply lost.
  datatype World = World(ports: PortTable, calls: seq<Request>, leaked: set<nat>)

  datatype Action =
    | Begin(row: TcpPortRow, start: nat, end: nat)
    | TryNext(call: nat, fault: Fault)   // one turn of the loop
    | Release(call: nat)                 // deallocate_tcp_port of the port this call holds
    | Delete(port: nat)                  // deallocate_tcp_port of any other port

  predicate Enabled(w: World, a: Action) {
    match a
    case Begin(_, _, _) => true
    case TryNext(call, _) => call < |w.calls| && w.calls[call].state.Trying?
    case Release(call) => call < |w.calls| && w.calls[call].state.Holding?
    case Delete(_) => true
  }

  function WithState(w: World, call: nat, state: Call): World
    requires call < |w.calls|
  {
    w.(calls := w.calls[call := w.calls[call].(state := state)])
  }

  function Apply(w: World, a: Action): World
    requires Enabled(w, a)
  {
    match a
    case Begin(row, start, end) => w.(calls := w.calls + [Request(row, start, end, Trying(start))])
    case TryNext(call, fault) =>
      var c := w.calls[call];
      var port := c.state.next;
      if port >= c.end then WithState(w, call, Exhausted)
      else
        var (ports, ok) := AfterInsert(w.ports, port, c.row, fault);
        WithState(w.(ports := ports,
            leaked := if !ok && port !in w.ports && port in ports then w.leaked + {port} else w.leaked),
                  call, if ok then Holding(port) else Trying(port + 1))
    case Release(call) =>
      var port := w.calls[call].state.port;
      WithState(w.(ports := w.ports - {port}, leaked := w.leaked - {port}), call, Released)
    case Delete(port) => w.(ports := w.ports - {port}, leaked := w.leaked - {port})
  }

  predicate Valid(w: World, run: seq<Action>)
    decreases |run|
  {
    run == [] || (Enabled(w, run[0]) && Valid(Apply(w, run[0]), run[1..]))
  }

  predicate HeldByNobody(w: World, port: nat) {
    forall i :: 0 <= i < |w.calls| ==> w.calls[i].state != Holding(port)
  }

  // deallocate_tcp_port does not ask who holds the port; here nobody frees another's.
  predicate Considerate(w: World, a: Action) {
    a.Delete? ==> HeldByNobody(w, a.port)
  }

  predicate ConsiderateRun(w: World, run: seq<Action>)
    ensures ConsiderateRun(w, run) ==> Valid(w, run)
    decreases |run|
  {
    run == [] || (Enabled(w, run[0]) && Considerate(w, run[0]) && ConsiderateRun(Apply(w, run[0]), run[1..]))
  }

  function Exec(w: World, run: seq<Action>): World
    requires Valid(w, run)
    decreases |run|
  {
    if run == [] then w else Exec(Apply(w, run[0]), run[1..])
  }

  ghost predicate CallOk(w: World, c: Request) {
    match c.state
    case Trying(next) => c.start <= next
    case Holding(port) => c.start <= port < c.end && port in w.ports && w.ports[port] == c.row && port !in w.leaked
    case _ => true
  }

  // Live allocations never share a port.
  ghost predicate Distinct(w: World) {
    forall i, j :: 0 <= i < j < |w.calls| && w.calls[i].state.Holding? ==> w.calls[j].state != w.calls[i].state
  }

  ghost predicate Inv(w: World) {
    && (forall i :: 0 <= i < |w.calls| ==> CallOk(w, w.calls[i]))
    && Distinct(w)
    && w.leaked <= w.ports.Keys
    && (forall port :: port in w.ports && port !in w.leaked ==>
          exists i :: 0 <= i < |w.calls| && w.calls[i].state == Holding(port))
  }

  lemma StepCalls(w: World, a: Action, i: nat)
    requires Inv(w) && Enabled(w, a) && Considerate(w, a) && i < |w.calls|
    ensures CallOk(Apply(w, a), Apply(w, a).calls[i])
  {
    assert CallOk(w, w.calls[i]);
  }

  lemma StepOwners(w: World, a: Action, port: nat)
    requires Inv(w) && Enabled(w, a) && Considerate(w, a)
    requires port in Apply(w, a).ports && port !in Apply(w, a).leaked
    ensures exists i :: 0 <= i < |Apply(w, a).calls| && Apply(w, a).calls[i].state == Holding(port)
  {
    var w' := Apply(w, a);
    if port in w.ports && port !in w.leaked {
      var i :| 0 <= i < |w.calls| && w.calls[i].state == Holding(port);
      assert w'.calls[i].state == Holding(port);
    } else {
      assert a.TryNext? && w'.calls[a.call].state == Holding(port);
    }
  }

  lemma StepInv(w: World, a: Action)
    requires Inv(w) && Enabled(w, a) && Considerate(w, a)
    ensures Inv(Apply(w, a))
  {
    var w' := Apply(w, a);
    forall i | 0 <= i < |w'.calls|
      ensures CallOk(w', w'.calls[i])
    {
      if i < |w.calls| {
        StepCalls(w, a, i);
      }
    }
    forall port | port in w'.ports && port !in w'.leaked
      ensures exists i :: 0 <= i < |w'.calls| && w'.calls[i].state == Holding(port)
    {
      StepOwners(w, a, port);
    }
    forall i, j | 0 <= i < j < |w'.calls| && w'.calls[i].state.Holding?
      ensures w'.calls[j].state != w'.calls[i].state
    {
      if j < |w.calls| {
        assert CallOk(w, w.calls[i]) && CallOk(w, w.calls[j]);
      }
    }
  }

  lemma {:induction false} RunInv(w: World, run: seq<Action>)
    requires Inv(w) && ConsiderateRun(w, run)
    ensures Inv(Exec(w, run))
    decreases |run|
  {
    if run == [] {
    } else {
      StepInv(w, run[0]);
      RunInv(Apply(w, run[0]), run[1..]);
    }
  }

  const INITIAL: World := World(map[], [], {})

  // However the INSERTs of concurrent calls interleave, live allocations never share a port,
  // each lies in its own caller's range with that caller's row, and every other row in the
  // table is one whose reply was lost.
  lemma AllocationsNeverCollide(run: seq<Action>, i: nat, j: nat)
    requires ConsiderateRun(INITIAL, run)
    requires i < |Exec(INITIAL, run).calls| && j < |Exec(INITIAL, run).calls|
    ensures var w := Exec(INITIAL, run);
            var c := w.calls[i];
            && (c.state.Holding? ==>
                  c.start <= c.state.port < c.end && c.state.port in w.ports && w.ports[c.state.port] == c.row)
            && (c.state.Holding? && w.calls[j].state == c.state ==> i == j)
            && (forall port :: port in w.ports && port !in w.leaked ==>
                  exists k :: 0 <= k < |w.calls| && w.calls[k].state == Holding(port))
  {
    RunInv(INITIAL, run);
    var w := Exec(INITIAL, run);
    assert CallOk(w, w.calls[i]);
  }

  // ---------- A call alone is the loop ----------

  // What one turn that does not succeed adds to the rest of the loop.
  lemma SkippedTurn(before: PortTable, after: PortTable, next: nat, end: nat, row: TcpPortRow,
      faults: map<nat, Fault>, last: PortTable, found: Option<nat>)
    requires next < end && Skipped(before, faults, next)
    requires after == before + Leaked(before, faults, next, next + 1, row)
    requires Allocated(after, last, row, faults, next + 1, end, found)
    ensures Allocated(before, last, row, faults, next, end, found)
  {
    forall p | next < p < end
      ensures Skipped(after, faults, p) <==> Skipped(before, faults, p)
    {
    }
    var stop := if found.Some? then found.value else end;
    LeakedSplits(before, after, faults, next, stop, row);
  }

  lemma LeakedSplits(before: PortTable, after: PortTable, faults: map<nat, Fault>, next: nat, stop: nat, row: TcpPortRow)
    requires next < stop && after == before + Leaked(before, faults, next, next + 1, row)
    ensures after + Leaked(after, faults, next + 1, stop, row) == before + Leaked(before, faults, next, stop, row)
  {
  }

  predicate PassesOver(w: World, call: nat, faults: map<nat, Fault>)
    requires call < |w.calls| && w.calls[call].state.Trying?
  {
    w.calls[call].state.next < w.calls[call].end && Skipped(w.ports, faults, w.calls[call].state.next)
  }

  // A turn that does not succeed, and one that ends the loop.
  lemma TurnPasses(w: World, call: nat, faults: map<nat, Fault>)
    requires call < |w.calls| && w.calls[call].state.Trying? && PassesOver(w, call, faults)
    ensures var c := w.calls[call];
            var next := c.state.next;
            var w' := Apply(w, TryNext(call, FaultAt(faults, next)));
            && w'.calls == w.calls[call := c.(state := Trying(next + 1))]
            && w'.ports == w.ports + Leaked(w.ports, faults, next, next + 1, c.row)
  {
    var c, next := w.calls[call], w.calls[call].state.next;
    assert Leaked(w.ports, faults, next, next + 1, c.row) ==
      if next !in w.ports && FaultAt(faults, next).ReplyLost? then map[next := c.row] else map[];
  }

  lemma TurnEnds(w: World, call: nat, faults: map<nat, Fault>)
    requires call < |w.calls| && w.calls[call].state.Trying? && !PassesOver(w, call, faults)
    ensures var c := w.calls[call];
            var next := c.state.next;
            var w' := Apply(w, TryNext(call, FaultAt(faults, next)));
            && w'.calls == w.calls[call := c.(state := if next < c.end then Holding(next) else Exhausted)]
            && w'.ports == if next < c.end then w.ports[next := c.row] else w.ports
  {
  }

  lemma LastTurn(before: PortTable, next: nat, end: nat, row: TcpPortRow, faults: map<nat, Fault>)
    ensures next >= end ==> Allocated(before, before, row, faults, next, end, None)
    ensures next < end && !Skipped(before, faults, next) ==>
            Allocated(before, before[next := row], row, faults, next, end, Some(next))
  {
    assert Leaked(before, faults, next, next, row) == map[];
    assert next >= end ==> Leaked(before, faults, next, end, row) == map[];
    assert before + map[] == before;
  }

  lemma NoTurns(w: World)
    ensures ConsiderateRun(w, []) && Exec(w, []) == w
  {
  }

  lemma Prepend(w: World, a: Action, rest: seq<Action>) returns (run: seq<Action>)
    requires Enabled(w, a) && Considerate(w, a) && ConsiderateRun(Apply(w, a), rest)
    ensures ConsiderateRun(w, run) && Exec(w, run) == Exec(Apply(w, a), rest)
  {
    run := [a] + rest;
    assert run[1..] == rest;
  }

  // From one world to another this call has gone through its loop, and the others stand.
  ghost predicate LoopsTo(w: World, w': World, call: nat, faults: map<nat, Fault>, found: Option<nat>)
    requires call < |w.calls| && w.calls[call].state.Trying?
  {
    var c := w.calls[call];
    && w'.calls == w.calls[call := c.(state := if found.Some? then Holding(found.value) else Exhausted)]
    && Allocated(w.ports, w'.ports, c.row, faults, c.state.next, c.end, found)
  }

  lemma PassThenLoop(w: World, last: World, call: nat, faults: map<nat, Fault>, found: Option<nat>)
    requires call < |w.calls| && w.calls[call].state.Trying? && PassesOver(w, call, faults)
    ensures var w' := Apply(w, TryNext(call, FaultAt(faults, w.calls[call].state.next)));
            && call < |w'.calls| && w'.calls[call].state == Trying(w.calls[call].state.next + 1)
            && w'.calls[call].end == w.calls[call].end
            && (LoopsTo(w', last, call, faults, found) ==> LoopsTo(w, last, call, faults, found))
  {
    var c := w.calls[call];
    var w' := Apply(w, TryNext(call, FaultAt(faults, c.state.next)));
    TurnPasses(w, call, faults);
    hide Apply, Allocated, Leaked, Skipped, FaultAt;
    assert w'.calls[call] == c.(state := Trying(c.state.next + 1));
    if LoopsTo(w', last, call, faults, found) {
      SkippedTurn(w.ports, w'.ports, c.state.next, c.end, c.row, faults, last.ports, found);
      assert last.calls == w.calls[call := last.calls[call]];
    }
  }

  lemma LoopEnds(w: World, call: nat, faults: map<nat, Fault>)
    requires call < |w.calls| && w.calls[call].state.Trying? && !PassesOver(w, call, faults)
    ensures var next := w.calls[call].state.next;
            LoopsTo(w, Apply(w, TryNext(call, FaultAt(faults, next))), call, faults,
                    if next < w.calls[call].end then Some(next) else None)
  {
    TurnEnds(w, call, faults);
    LastTurn(w.ports, w.calls[call].state.next, w.calls[call].end, w.calls[call].row, faults);
    hide Apply, Allocated, Leaked, Skipped, FaultAt;
  }

  // Taking its turns with nobody in between, a call ends as the loop of AllocateTcpPort does,
  // and leaves every other call alone.
  lemma {:induction false} TurnsAreTheLoop(w: World, call: nat, faults: map<nat, Fault>)
    returns (run: seq<Action>, found: Option<nat>)
    requires call < |w.calls| && w.calls[call].state.Trying?
    ensures ConsiderateRun(w, run) && LoopsTo(w, Exec(w, run), call, faults, found)
    decreases w.calls[call].end - w.calls[call].state.next
  {
    var next := w.calls[call].state.next;
    var a := TryNext(call, FaultAt(faults, next));
    var w' := Apply(w, a);
    assert Enabled(w, a) && Considerate(w, a);
    hide Apply, LoopsTo, FaultAt, Exec, ConsiderateRun, Enabled, Considerate;
    if PassesOver(w, call, faults) {
      PassThenLoop(w, w, call, faults, None);
      var rest;
      rest, found := TurnsAreTheLoop(w', call, faults);
      run := Prepend(w, a, rest);
      PassThenLoop(w, Exec(w', rest), call, faults, found);
    } else {
      LoopEnds(w, call, faults);
      NoTurns(w');
      run := Prepend(w, a, []);
      found := if next < w.calls[call].end then Some(next) else None;
    }
  }

  // ---------- Freeing another's port ----------

  // From any state in which the port has no row, the next caller gets it.
  lemma GivenOut(w: World, row: TcpPortRow, port: nat) returns (more: seq<Action>)
    requires port !in w.ports
    ensures ConsiderateRun(w, more)
    ensures Exec(w, more).calls == w.calls + [Request(row, port, port + 1, Holding(port))]
    ensures Exec(w, more).ports == w.ports[port := row]
  {
    more := [Begin(row, port, port + 1), TryNext(|w.calls|, NoFault)];
    assert more[1..][1..] == [];
    var w1 := Apply(w, more[0]);
    var w2 := Apply(w1, more[1]);
    assert Exec(w1, more[1..]) == Exec(w2, []);
  }

  // From the empty table: one caller gets the port, someone frees it, a second caller gets
  // it too, and the row is the second's.
  lemma StrayDeleteCollides(row: TcpPortRow, other: TcpPortRow, port: nat) returns (run: seq<Action>)
    ensures Valid(INITIAL, run)
    ensures Exec(INITIAL, run).calls ==
            [Request(row, port, port + 1, Holding(port)), Request(other, port, port + 1, Holding(port))]
    ensures Exec(INITIAL, run).ports == map[port := other]
  {
    var a1, a2, a3 := Begin(row, port, port + 1), TryNext(0, NoFault), Delete(port);
    var w1 := Apply(INITIAL, a1);
    var w2 := Apply(w1, a2);
    var w3 := Apply(w2, a3);
    var second := GivenOut(w3, other, port);
    run := [a1, a2, a3] + second;
    assert run[1..] == [a2, a3] + second && run[1..][1..] == [a3] + second && run[1..][1..][1..] == second;
    assert Exec(w2, run[1..][1..]) == Exec(w3, second);
  }

  // Whether live allocations stay distinct however considerate everyone is from here on.
  ghost predicate StaysDistinct(w: World) {
    forall more :: ConsiderateRun(w, more) ==> Distinct(Exec(w, more))
  }

  // In any state the protocol keeps, freeing a port is harmless exactly when no call holds
  // it.
  lemma DeleteIsSafeExactlyWhenUnheld(w: World, port: nat)
    requires Inv(w)
    ensures StaysDistinct(Apply(w, Delete(port))) <==> HeldByNobody(w, port)
  {
    var w' := Apply(w, Delete(port));
    if HeldByNobody(w, port) {
      StepInv(w, Delete(port));
      forall more | ConsiderateRun(w', more)
        ensures Distinct(Exec(w', more))
      {
        RunInv(w', more);
      }
    } else {
      var i :| 0 <= i < |w.calls| && w.calls[i].state == Holding(port);
      var more := GivenOut(w', w.calls[i].row, port);
      var w2 := Exec(w', more);
      assert w2.calls[i].state == w2.calls[|w.calls|].state;
      assert !Distinct(w2);
    }
  }
}
