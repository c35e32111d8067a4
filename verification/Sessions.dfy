/** Connection facilitation: sessions from request to connection or relay, with the NAT
    classification and the counters that hang on it. */
module Sessions {
  import opened Common

  type SessionId = string

  // ---------- NAT classification ----------

  datatype IpAddr = V4(a: byte, b: byte, c: byte, d: byte) | V6

  datatype NatType = Open | FullCone | RestrictedCone | PortRestrictedCone | Symmetric | Unknown

  predicate IsPrivateIp(ip: IpAddr) {
    match ip
    case V4(a, b, _, _) =>
      a == 10 || (a == 172 && 16 <= b <= 31) || (a == 192 && b == 168) || a == 127
    case V6 => true
  }

  // detect_client_nat, on the client address as parsed (None: it did not parse).
  function DetectClientNat(client: Option<IpAddr>): Option<NatType> {
    match client
    case None => None
    case Some(ip) => Some(if IsPrivateIp(ip) then Unknown else Open)
  }

  predicate CanUseDirectConnection(clientNat: Option<NatType>) {
    match clientNat
    case None => false
    case Some(Open) => true
    case Some(FullCone) => true
    case Some(RestrictedCone) => true
    case Some(PortRestrictedCone) => true
    case Some(Symmetric) => false
    case Some(Unknown) => false
  }

  predicate NeedsHolePunching(s: Session) {
    s.clientNat.Some? && s.agentNat.Some? && !s.clientNat.value.Open? && !s.agentNat.value.Open?
  }

  // ---------- State ----------

  datatype Status = Pending | FindingAgent | Requesting | HolePunching | Ready | Connected | Relayed | Failed

  datatype Session = Session(
    client: Option<IpAddr>, agentId: string, agentEndpoint: Option<string>, status: Status, createdAt: int,
    clientNat: Option<NatType>, agentNat: Option<NatType>, directConnection: bool)

  // A successful client_connected: the session's client address, and whether the session had
  // a relay by then.
  datatype Connection = Connection(client: Option<IpAddr>, relayed: bool)

  // `connected` is history.
  datatype State = State(
    sessions: map<SessionId, Session>, relays: map<SessionId, string>,
    directSuccesses: nat, relayUsed: nat, connected: seq<Connection>)

  datatype Agent = Agent(id: string, isTcp: bool)

  datatype Action =
    // agent: who serves the subdomain, if anyone; sendOk: whether the listen request got out.
    | RequestConnection(id: SessionId, agent: Option<Agent>, client: Option<IpAddr>, now: int, sendOk: bool)
    | AgentListening(id: SessionId, endpoint: string, natType: Option<NatType>)
    | ClientConnected(id: SessionId)
    | ConnectionFailed(id: SessionId)
    | Cleanup(now: int, timeoutMs: int)

  function NewSession(agent: Agent, client: Option<IpAddr>, now: int): Session {
    var natType := DetectClientNat(client);
    Session(client, agent.id, None, FindingAgent, now, natType, None, CanUseDirectConnection(natType))
  }

  function Listening(s: Session, endpoint: string, natType: Option<NatType>): Session {
    var s' := s.(agentEndpoint := Some(endpoint), agentNat := natType);
    s'.(status := if NeedsHolePunching(s') then HolePunching else Ready)
  }

  function RelayEndpoint(id: SessionId): string {
    "relay:" + id
  }

  function Retained(sessions: map<SessionId, Session>, cutoff: int): map<SessionId, Session> {
    map id | id in sessions && sessions[id].createdAt > cutoff :: sessions[id]
  }

  datatype Outcome = Done | TunnelNotFound | NotTcp | SendFailed | SessionNotFound

  // What the caller is told. A failed send is reported although its session stays.
  function OutcomeOf(st: State, a: Action): Outcome {
    match a
    case RequestConnection(_, agent, _, _, sendOk) =>
      if agent.None? then TunnelNotFound else if !agent.value.isTcp then NotTcp
      else if !sendOk then SendFailed else Done
    case Cleanup(_, _) => Done
    case _ => if a.id in st.sessions then Done else SessionNotFound
  }

  function Apply(st: State, a: Action): State {
    match a
    case RequestConnection(id, agent, client, now, _) =>
      if agent.None? || !agent.value.isTcp then st
      else st.(sessions := st.sessions[id := NewSession(agent.value, client, now)])
    case AgentListening(id, endpoint, natType) =>
      if id !in st.sessions then st
      else st.(sessions := st.sessions[id := Listening(st.sessions[id], endpoint, natType)])
    case ClientConnected(id) =>
      if id !in st.sessions then st
      else
        var s := st.sessions[id];
        st.(sessions := st.sessions[id := s.(status := Connected)],
            directSuccesses := if s.directConnection then st.directSuccesses + 1 else st.directSuccesses,
            relayUsed := if s.directConnection then st.relayUsed else st.relayUsed + 1,
            connected := st.connected + [Connection(s.client, id in st.relays)])
    case ConnectionFailed(id) =>
      if id !in st.sessions then st
      else st.(sessions := st.sessions[id := st.sessions[id].(status := Relayed)],
               relays := st.relays[id := RelayEndpoint(id)])
    case Cleanup(now, timeoutMs) => st.(sessions := Retained(st.sessions, now - timeoutMs))
  }

  function Exec(st: State, run: seq<Action>): State
    decreases |run|
  {
    if run == [] then st else Exec(Apply(st, run[0]), run[1..])
  }

  const INITIAL: State := State(map[], map[], 0, 0, [])

  // ---------- The facilitator itself ----------

  class ConnectionFacilitator {
    var sessions: map<SessionId, Session>
    var relays: map<SessionId, string>
    var directSuccesses: nat
    var relayUsed: nat
    ghost var connected: seq<Connection>

    ghost function View(): State
      reads this
    {
      State(sessions, relays, directSuccesses, relayUsed, connected)
    }

    constructor ()
      ensures View() == INITIAL
    {
      sessions, relays := map[], map[];
      directSuccesses, relayUsed := 0, 0;
      connected := [];
    }

    method RequestConnection(id: SessionId, agent: Option<Agent>, client: Option<IpAddr>, now: int, sendOk: bool)
      returns (outcome: Outcome)
      modifies this
      ensures var a := Action.RequestConnection(id, agent, client, now, sendOk);
              View() == Apply(old(View()), a) && outcome == OutcomeOf(old(View()), a)
      ensures outcome == TunnelNotFound <==> agent.None?
      ensures outcome == NotTcp <==> agent.Some? && !agent.value.isTcp
      ensures outcome == SendFailed <==> agent.Some? && agent.value.isTcp && !sendOk
      ensures outcome == Done <==> agent.Some? && agent.value.isTcp && sendOk
      // A session is stored exactly for a TCP agent, sent to or not.
      ensures agent.None? || !agent.value.isTcp ==> sessions == old(sessions)
      ensures agent.Some? && agent.value.isTcp ==>
        var natType := if client.None? then None else Some(if IsPublic(client) then Open else Unknown);
        sessions == old(sessions)[id :=
          Session(client, agent.value.id, None, FindingAgent, now, natType, None, IsPublic(client))]
      ensures relays == old(relays) && directSuccesses == old(directSuccesses) && relayUsed == old(relayUsed)
    {
      if agent.None? {
        return TunnelNotFound;
      }
      if !agent.value.isTcp {
        return NotTcp;
      }
      var clientNat: Option<NatType> := None;
      if client.Some? {
        if IsPrivateIp(client.value) {
          clientNat := Some(Unknown);
        } else {
          clientNat := Some(Open);
        }
      }
      var direct := CanUseDirectConnection(clientNat);
      sessions := sessions[id := Session(client, agent.value.id, None, FindingAgent, now, clientNat, None, direct)];
      outcome := if sendOk then Done else SendFailed;
    }

    method AgentListening(id: SessionId, endpoint: string, natType: Option<NatType>) returns (outcome: Outcome)
      modifies this
      ensures var a := Action.AgentListening(id, endpoint, natType);
              View() == Apply(old(View()), a) && outcome == OutcomeOf(old(View()), a)
      ensures outcome == if id in old(sessions) then Done else SessionNotFound
      ensures id !in old(sessions) ==> sessions == old(sessions)
      ensures id in old(sessions) ==>
        var s := old(sessions)[id];
        sessions == old(sessions)[id := s.(agentEndpoint := Some(endpoint), agentNat := natType,
          status := if BehindNat(s.clientNat) && BehindNat(natType) then HolePunching else Ready)]
      ensures relays == old(relays) && directSuccesses == old(directSuccesses) && relayUsed == old(relayUsed)
    {
      outcome := SessionNotFound;
      if id in sessions {
        outcome := Done;
        var session := sessions[id];
        session := session.(agentEndpoint := Some(endpoint));
        session := session.(agentNat := natType);
        if NeedsHolePunching(session) {
          session := session.(status := HolePunching);
        } else {
          session := session.(status := Ready);
        }
        sessions := sessions[id := session];
      }
    }

    method ClientConnected(id: SessionId) returns (outcome: Outcome)
      modifies this
      ensures var a := Action.ClientConnected(id);
              View() == Apply(old(View()), a) && outcome == OutcomeOf(old(View()), a)
      ensures outcome == if id in old(sessions) then Done else SessionNotFound
      ensures id !in old(sessions) ==>
        sessions == old(sessions) && directSuccesses == old(directSuccesses) && relayUsed == old(relayUsed)
      ensures id in old(sessions) ==>
        var direct := old(sessions)[id].directConnection;
        && sessions == old(sessions)[id := old(sessions)[id].(status := Connected)]
        && directSuccesses == old(directSuccesses) + (if direct then 1 else 0)
        && relayUsed == old(relayUsed) + (if direct then 0 else 1)
      ensures relays == old(relays)
    {
      outcome := SessionNotFound;
      if id in sessions {
        outcome := Done;
        var session := sessions[id];
        sessions := sessions[id := session.(status := Connected)];
        if session.directConnection {
          directSuccesses := directSuccesses + 1;
        } else {
          relayUsed := relayUsed + 1;
        }
        connected := connected + [Connection(session.client, id in relays)];
      }
    }

    method ConnectionFailed(id: SessionId) returns (endpoint: Option<string>)
      modifies this
      ensures var a := Action.ConnectionFailed(id);
              View() == Apply(old(View()), a)
              && endpoint == if OutcomeOf(old(View()), a).Done? then Some(RelayEndpoint(id)) else None
      ensures id !in old(sessions) ==> endpoint == None && sessions == old(sessions) && relays == old(relays)
      ensures id in old(sessions) ==>
        && endpoint == Some("relay:" + id) && relays == old(relays)[id := "relay:" + id]
        && sessions == old(sessions)[id := old(sessions)[id].(status := Relayed)]
      ensures directSuccesses == old(directSuccesses) && relayUsed == old(relayUsed)
    {
      endpoint := None;
      if id in sessions {
        endpoint := Some("relay:" + id);
        relays := relays[id := endpoint.value];
        sessions := sessions[id := sessions[id].(status := Relayed)];
      }
    }

    method CleanupSessions(now: int, timeoutMs: int)
      modifies this
      ensures View() == Apply(old(View()), Action.Cleanup(now, timeoutMs))
      ensures forall id :: id in sessions <==> id in old(sessions) && old(sessions)[id].createdAt > now - timeoutMs
      ensures forall id :: id in sessions ==> sessions[id] == old(sessions)[id]
      ensures relays == old(relays) && directSuccesses == old(directSuccesses) && relayUsed == old(relayUsed)
    {
      var cutoff := now - timeoutMs;
      var todo := sessions.Keys;
      while todo != {}
        modifies this`sessions
        invariant todo <= sessions.Keys <= old(sessions).Keys
        invariant forall id :: id in sessions ==> sessions[id] == old(sessions)[id]
        invariant forall id :: id in old(sessions) && id !in todo ==>
          (id in sessions <==> old(sessions)[id].createdAt > cutoff)
        decreases todo
      {
        var id :| id in todo;
        if sessions[id].createdAt <= cutoff {
          sessions := sessions - {id};
        }
        todo := todo - {id};
      }
      assert sessions == Retained(old(sessions), cutoff);
    }
  }

  // ---------- What every run keeps ----------

  // A client is reachable directly exactly when its address is an IPv4 one outside the
  // private and loopback ranges.
  predicate IsPublic(client: Option<IpAddr>) {
    && client.Some? && client.value.V4?
    && var ip := client.value;
       ip.a != 10 && ip.a != 127 && !(ip.a == 172 && 16 <= ip.b < 32) && !(ip.a == 192 && ip.b == 168)
  }

  predicate SessionOk(s: Session) {
    && (s.directConnection <==> IsPublic(s.client))
    && (s.clientNat == Some(Open) <==> IsPublic(s.client))
    && (s.clientNat.None? <==> s.client.None?)
    && match s.status
       case FindingAgent => s.agentEndpoint.None? && s.agentNat.None?
       case HolePunching =>
         && !s.directConnection && s.agentEndpoint.Some?
         && s.clientNat.Some? && s.clientNat.value != Open
         && s.agentNat.Some? && s.agentNat.value != Open
       case Ready =>
         && s.agentEndpoint.Some?
         && (s.directConnection || s.client.None? || s.agentNat.None? || s.agentNat == Some(Open))
       case Connected => true
       case Relayed => true
       case _ => false
  }

  // How many connections had a client of this kind and a relay or none.
  function Tally(connected: seq<Connection>, isPublic: bool, relayed: bool): nat {
    if connected == [] then 0
    else
      var last := connected[|connected| - 1];
      Tally(connected[..|connected| - 1], isPublic, relayed)
      + if IsPublic(last.client) == isPublic && last.relayed == relayed then 1 else 0
  }

  lemma {:induction false} TalliesCover(connected: seq<Connection>)
    ensures Tally(connected, true, true) + Tally(connected, true, false)
          + Tally(connected, false, true) + Tally(connected, false, false) == |connected|
  {
    if connected == [] {
    } else {
      TalliesCover(connected[..|connected| - 1]);
    }
  }

  // The counters as the code keeps them: by the client's address alone.
  ghost predicate CountsByAddress(st: State) {
    && st.directSuccesses == Tally(st.connected, true, true) + Tally(st.connected, true, false)
    && st.relayUsed == Tally(st.connected, false, true) + Tally(st.connected, false, false)
  }

  ghost predicate RelaysOk(st: State) {
    && (forall id :: id in st.sessions && st.sessions[id].status.Relayed? ==> id in st.relays)
    && (forall id :: id in st.relays ==> st.relays[id] == RelayEndpoint(id))
  }

  ghost predicate Inv(st: State) {
    && (forall id :: id in st.sessions ==> SessionOk(st.sessions[id]))
    && RelaysOk(st) && CountsByAddress(st)
  }

  lemma StepSession(st: State, a: Action, id: SessionId)
    requires id in st.sessions ==> SessionOk(st.sessions[id])
    requires id in Apply(st, a).sessions
    ensures SessionOk(Apply(st, a).sessions[id])
  {
  }

  lemma StepRelays(st: State, a: Action)
    requires RelaysOk(st)
    ensures RelaysOk(Apply(st, a))
    ensures st.relays.Keys <= Apply(st, a).relays.Keys
  {
    hide RelayEndpoint, DetectClientNat, CanUseDirectConnection;
  }

  lemma StepCounts(st: State, a: Action)
    requires CountsByAddress(st)
    requires a.ClientConnected? && a.id in st.sessions ==>
      (st.sessions[a.id].directConnection <==> IsPublic(st.sessions[a.id].client))
    ensures CountsByAddress(Apply(st, a))
  {
    hide IsPublic, NewSession, Listening, Retained, RelayEndpoint;
    if a.ClientConnected? && a.id in st.sessions {
      assert Apply(st, a).connected[..|st.connected|] == st.connected;
    }
  }

  lemma StepInv(st: State, a: Action)
    requires Inv(st)
    ensures Inv(Apply(st, a))
    ensures st.relays.Keys <= Apply(st, a).relays.Keys
  {
    var st' := Apply(st, a);
    StepCounts(st, a);
    StepRelays(st, a);
    hide CountsByAddress, RelaysOk, SessionOk, Apply;
    forall id | id in st'.sessions
      ensures SessionOk(st'.sessions[id])
    {
      StepSession(st, a, id);
    }
  }

  lemma {:induction false} RunInv(st: State, run: seq<Action>)
    requires Inv(st)
    ensures Inv(Exec(st, run))
    decreases |run|
  {
    if run == [] {
    } else {
      StepInv(st, run[0]);
      RunInv(Apply(st, run[0]), run[1..]);
    }
  }

  // Every session of every run, whatever order the calls came in.
  lemma SessionsAreConsistent(run: seq<Action>, id: SessionId)
    requires id in Exec(INITIAL, run).sessions
    ensures SessionOk(Exec(INITIAL, run).sessions[id])
  {
    RunInv(INITIAL, run);
  }

  // The accepted request this id's session goes back to, if it still lives after the run: one
  // that met a TCP agent, and that no cleanup since has found old enough.
  function Living(run: seq<Action>, id: SessionId, request: Option<Action>): (living: Option<Action>)
    requires request.Some? ==> Accepted(request.value, id)
    ensures living.Some? ==> Accepted(living.value, id)
  {
    if run == [] then request
    else
      var a := run[0];
      Living(run[1..], id,
        if Accepted(a, id) then Some(a)
        else if a.Cleanup? && request.Some? && request.value.now <= a.now - a.timeoutMs then None
        else request)
  }

  predicate Accepted(a: Action, id: SessionId) {
    a.RequestConnection? && a.id == id && a.agent.Some? && a.agent.value.isTcp
  }

  // A session, if any, carries its request's agent, client and time.
  predicate GoesBackTo(st: State, id: SessionId, request: Option<Action>)
    requires request.Some? ==> Accepted(request.value, id)
  {
    && (id in st.sessions <==> request.Some?)
    && (request.Some? ==>
          var s := st.sessions[id];
          s.agentId == request.value.agent.value.id && s.client == request.value.client
          && s.createdAt == request.value.now)
  }

  lemma GoesBackStep(st: State, a: Action, id: SessionId, request: Option<Action>)
    requires (request.Some? ==> Accepted(request.value, id)) && GoesBackTo(st, id, request)
    ensures GoesBackTo(Apply(st, a), id,
      if Accepted(a, id) then Some(a)
      else if a.Cleanup? && request.Some? && request.value.now <= a.now - a.timeoutMs then None
      else request)
  {
  }

  lemma {:induction false} LivingRun(st: State, run: seq<Action>, id: SessionId, request: Option<Action>)
    requires (request.Some? ==> Accepted(request.value, id)) && GoesBackTo(st, id, request)
    ensures GoesBackTo(Exec(st, run), id, Living(run, id, request))
    decreases |run|
  {
    if run == [] {
    } else {
      GoesBackStep(st, run[0], id, request);
      hide GoesBackTo;
      var a := run[0];
      LivingRun(Apply(st, a), run[1..], id,
        if Accepted(a, id) then Some(a)
        else if a.Cleanup? && request.Some? && request.value.now <= a.now - a.timeoutMs then None
        else request);
    }
  }

  // In every run an id has a session exactly when its last accepted request is no older than
  // any cleanup since allows, and the session is that request's.
  lemma SessionsAreTheirRequests(run: seq<Action>, id: SessionId)
    ensures GoesBackTo(Exec(INITIAL, run), id, Living(run, id, None))
  {
    LivingRun(INITIAL, run, id, None);
  }

  // Which NAT types allow a direct connection.
  lemma DirectNatTypes(clientNat: Option<NatType>)
    ensures CanUseDirectConnection(clientNat) <==> clientNat.Some? && clientNat.value !in {Symmetric, Unknown}
  {
  }

  // No request reuses this id in the rest of the run.
  predicate NotRequestedAgain(run: seq<Action>, id: SessionId) {
    forall i :: 0 <= i < |run| ==> !(run[i].RequestConnection? && run[i].id == id)
  }

  // What a session was classified as when it was created stays with it as long as it lives.
  lemma {:induction false} ClassificationIsFixed(st: State, run: seq<Action>, id: SessionId)
    requires NotRequestedAgain(run, id)
    requires id in st.sessions && id in Exec(st, run).sessions
    ensures var s, s' := st.sessions[id], Exec(st, run).sessions[id];
            && s'.client == s.client && s'.clientNat == s.clientNat && s'.directConnection == s.directConnection
            && s'.agentId == s.agentId && s'.createdAt == s.createdAt
    decreases |run|
  {
    if run == [] {
    } else {
      assert !(run[0].RequestConnection? && run[0].id == id);
      assert forall i :: 0 <= i < |run[1..]| ==> run[1..][i] == run[i + 1];
      if id !in Apply(st, run[0]).sessions {
        GoneStaysGone(Apply(st, run[0]), run[1..], id);
      }
      ClassificationIsFixed(Apply(st, run[0]), run[1..], id);
    }
  }

  lemma {:induction false} GoneStaysGone(st: State, run: seq<Action>, id: SessionId)
    requires NotRequestedAgain(run, id) && id !in st.sessions
    ensures id !in Exec(st, run).sessions
    decreases |run|
  {
    if run == [] {
    } else {
      assert !(run[0].RequestConnection? && run[0].id == id);
      assert forall i :: 0 <= i < |run[1..]| ==> run[1..][i] == run[i + 1];
      GoneStaysGone(Apply(st, run[0]), run[1..], id);
    }
  }

  // The last report of the agent on this session, and the last thing that happened to it.
  function LastReport(run: seq<Action>, id: SessionId): (last: Option<Action>)
    ensures last.Some? ==> last.value.AgentListening?
  {
    if run == [] then None
    else if LastReport(run[1..], id).Some? then LastReport(run[1..], id)
    else if run[0].AgentListening? && run[0].id == id then Some(run[0]) else None
  }

  function LastEvent(run: seq<Action>, id: SessionId): (last: Option<Action>)
    ensures last.Some? ==> last.value.AgentListening? || last.value.ClientConnected? || last.value.ConnectionFailed?
  {
    if run == [] then None
    else if LastEvent(run[1..], id).Some? then LastEvent(run[1..], id)
    else if IsEvent(run[0], id) then Some(run[0])
    else None
  }

  predicate BehindNat(natType: Option<NatType>) {
    natType.Some? && natType.value != Open
  }

  function StatusAfter(clientNat: Option<NatType>, event: Action): Status
    requires event.AgentListening? || event.ClientConnected? || event.ConnectionFailed?
  {
    match event
    case AgentListening(_, _, agentNat) =>
      if BehindNat(clientNat) && BehindNat(agentNat) then HolePunching else Ready
    case ClientConnected(_) => Connected
    case ConnectionFailed(_) => Relayed
  }

  predicate IsEvent(a: Action, id: SessionId) {
    (a.AgentListening? || a.ClientConnected? || a.ConnectionFailed?) && a.id == id
  }

  lemma SessionStep(st: State, a: Action, id: SessionId)
    requires id in st.sessions && id in Apply(st, a).sessions && !(a.RequestConnection? && a.id == id)
    ensures var s, s' := st.sessions[id], Apply(st, a).sessions[id];
            && s'.clientNat == s.clientNat
            && s'.status == (if IsEvent(a, id) then StatusAfter(s.clientNat, a) else s.status)
            && (if a.AgentListening? && a.id == id then s'.agentEndpoint == Some(a.endpoint) && s'.agentNat == a.natType
                else s'.agentEndpoint == s.agentEndpoint && s'.agentNat == s.agentNat)
  {
  }

  // A living session is what its own history made it: the endpoint and agent NAT of the last
  // report, and a status decided by the last event alone, whatever came before it.
  lemma {:induction false} SessionIsItsHistory(st: State, run: seq<Action>, id: SessionId)
    requires NotRequestedAgain(run, id)
    requires id in st.sessions && id in Exec(st, run).sessions
    ensures var s, s' := st.sessions[id], Exec(st, run).sessions[id];
            && (match LastReport(run, id)
                case None => s'.agentEndpoint == s.agentEndpoint && s'.agentNat == s.agentNat
                case Some(report) => s'.agentEndpoint == Some(report.endpoint) && s'.agentNat == report.natType)
            && (LastEvent(run, id).None? ==> s'.status == s.status)
            && (LastEvent(run, id).Some? ==> s'.status == StatusAfter(s.clientNat, LastEvent(run, id).value))
    decreases |run|
  {
    if run == [] {
    } else {
      assert !(run[0].RequestConnection? && run[0].id == id);
      assert forall i :: 0 <= i < |run[1..]| ==> run[1..][i] == run[i + 1];
      if id !in Apply(st, run[0]).sessions {
        GoneStaysGone(Apply(st, run[0]), run[1..], id);
      }
      SessionStep(st, run[0], id);
      SessionIsItsHistory(Apply(st, run[0]), run[1..], id);
    }
  }

  function RelayedIds(st: State): set<SessionId> {
    set id | id in st.sessions && st.sessions[id].status.Relayed?
  }

  // Each relayed session has its own relay entry, and every successful connection is counted
  // once, by its client's address alone.
  ghost predicate Balanced(st: State) {
    && (forall id :: id in RelayedIds(st) ==> id in st.relays && st.relays[id] == RelayEndpoint(id))
    && |RelayedIds(st)| <= |st.relays|
    && CountsByAddress(st)
    && st.directSuccesses + st.relayUsed == |st.connected|
  }

  lemma InvBalances(st: State)
    requires Inv(st)
    ensures Balanced(st)
  {
    SubsetSize(RelayedIds(st), st.relays.Keys);
    assert |st.relays.Keys| == |st.relays|;
    TalliesCover(st.connected);
  }

  lemma RelaysAndCountersBalance(run: seq<Action>)
    ensures Balanced(Exec(INITIAL, run))
  {
    RunInv(INITIAL, run);
    InvBalances(Exec(INITIAL, run));
  }

  // A connection_failed under this id found its session.
  predicate FellBack(st: State, run: seq<Action>, id: SessionId)
    decreases |run|
  {
    run != [] && ((run[0] == ConnectionFailed(id) && id in st.sessions) || FellBack(Apply(st, run[0]), run[1..], id))
  }

  lemma {:induction false} RelayEntryIsAFallback(st: State, run: seq<Action>, id: SessionId)
    ensures id in Exec(st, run).relays <==> id in st.relays || FellBack(st, run, id)
    decreases |run|
  {
    if run == [] {
    } else {
      RelayEntryIsAFallback(Apply(st, run[0]), run[1..], id);
    }
  }

  lemma ConnectionStep(st: State, id: SessionId)
    requires id in st.sessions && SessionOk(st.sessions[id])
    ensures var st', isPublic := Apply(st, ClientConnected(id)), IsPublic(st.sessions[id].client);
            && st'.directSuccesses == (if isPublic then st.directSuccesses + 1 else st.directSuccesses)
            && st'.relayUsed == (if isPublic then st.relayUsed else st.relayUsed + 1)
            && st'.connected == st.connected + [Connection(st.sessions[id].client, id in st.relays)]
  {
    hide IsPublic;
  }

  lemma NoRelaysAtFirst(id: SessionId)
    ensures id !in INITIAL.relays
  {
  }

  // The next connection of a session is counted as direct exactly when its client is public,
  // and as relayed otherwise. So it is counted as what it is exactly when the sessions that
  // fell back are those whose client is not public.
  lemma ConnectionCountsByAddress(run: seq<Action>, id: SessionId)
    requires id in Exec(INITIAL, run).sessions
    ensures var st, st' := Exec(INITIAL, run), Apply(Exec(INITIAL, run), ClientConnected(id));
            var isPublic, fellBack := IsPublic(st.sessions[id].client), FellBack(INITIAL, run, id);
            && (st'.directSuccesses == st.directSuccesses + 1 <==> isPublic)
            && (st'.relayUsed == st.relayUsed + 1 <==> !isPublic)
            && ((st'.relayUsed == st.relayUsed + 1 <==> fellBack) <==> (fellBack <==> !isPublic))
            && st'.connected == st.connected + [Connection(st.sessions[id].client, fellBack)]
  {
    hide Exec, Apply, IsPublic, FellBack, SessionOk;
    SessionsAreConsistent(run, id);
    NoRelaysAtFirst(id);
    RelayEntryIsAFallback(INITIAL, run, id);
    ConnectionStep(Exec(INITIAL, run), id);
  }

  function OverRelays(connected: seq<Connection>): nat {
    Tally(connected, true, true) + Tally(connected, false, true)
  }

  // Over a whole run: relay_used is off by the relayed connections of public clients, missed,
  // and the direct ones of the others, counted in. It is right exactly when these balance.
  lemma RelayCountIsOffBy(run: seq<Action>)
    ensures var st := Exec(INITIAL, run);
            var missed, extra := Tally(st.connected, true, true), Tally(st.connected, false, false);
            && st.relayUsed + missed == OverRelays(st.connected) + extra
            && st.directSuccesses + extra == |st.connected| - OverRelays(st.connected) + missed
            && (st.relayUsed == OverRelays(st.connected) <==> missed == extra)
  {
    RunInv(INITIAL, run);
    TalliesCover(Exec(INITIAL, run).connected);
  }

  // The shortest such run: request, fall back, connect.
  lemma RelayedConnectionCountsAsDirect(id: SessionId, client: Option<IpAddr>) returns (run: seq<Action>)
    requires IsPublic(client)
    ensures id in Exec(INITIAL, run).relays
    ensures Exec(INITIAL, run).directSuccesses == 1 && Exec(INITIAL, run).relayUsed == 0
    ensures Exec(INITIAL, run).connected == [Connection(client, true)]
  {
    run := [RequestConnection(id, Some(Agent("agent", true)), client, 0, true),
      ConnectionFailed(id), ClientConnected(id)];
    var s1 := Apply(INITIAL, run[0]);
    var s2 := Apply(s1, run[1]);
    var s3 := Apply(s2, run[2]);
    assert run[1..] == [run[1], run[2]] && run[1..][1..] == [run[2]] && run[1..][1..][1..] == [];
    assert Exec(s3, []) == s3;
    assert Exec(s2, [run[2]]) == s3;
    assert Exec(s1, run[1..]) == s3;
  }
}
