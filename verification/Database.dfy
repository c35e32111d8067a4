/** The shared database: the tables the servers coordinate through, and the statements they
    run on them.

    Each function says what one statement does to a table as a value; the class `Db` holds
    the tables and runs the statements in place. Columns nothing below reads are left out. */
module Database {
  import opened Common

  type ServerId = string
  type AgentId = string

  datatype ClusterRow = ClusterRow(leaderId: Option<ServerId>, leaderTerm: int, lastHeartbeat: int)
  datatype ServerRow = ServerRow(lastHeartbeat: int, isHealthy: bool)
  datatype AgentRow = AgentRow(serverId: ServerId, active: bool)
  datatype TcpPortRow = TcpPortRow(tunnelId: string, serverId: ServerId)

  type ServerTable = map<ServerId, ServerRow>
  type AgentTable = map<AgentId, AgentRow>
  type PortTable = map<nat, TcpPortRow>

  // The age, in milliseconds, a heartbeat must exceed before the acquiring UPDATE replaces
  // it. The statement hard-codes it; the configured leader timeout plays no part there.
  const TAKEOVER_AGE_MS: int := 15000

  // What the migration leaves behind: one row, no leader, term 0.
  const INITIAL_TABLE: Option<ClusterRow> := Some(ClusterRow(None, 0, 0))

  // get_cluster_state: the row as the caller sees it; an empty leader id reads as none.
  function SelectState(table: Option<ClusterRow>): Option<ClusterRow> {
    match table
    case None => None
    case Some(row) =>
      if row.leaderId == Some("") then Some(row.(leaderId := None)) else table
  }

  predicate MayTakeOver(row: ClusterRow, now: int) {
    row.leaderId.None? || row.lastHeartbeat < now - TAKEOVER_AGE_MS
  }

  // become_leader: the conditional UPDATE, and whether it changed a row.
  function AfterAcquire(table: Option<ClusterRow>, id: ServerId, term: int, now: int): (Option<ClusterRow>, bool) {
    if table.Some? && MayTakeOver(table.value, now) then
      (Some(ClusterRow(Some(id), term, now)), true)
    else
      (table, false)
  }

  // renew_leadership: guarded by the leader id alone, not by any time.
  function AfterRenew(table: Option<ClusterRow>, id: ServerId, now: int): (Option<ClusterRow>, bool) {
    if table.Some? && table.value.leaderId == Some(id) then
      (Some(table.value.(lastHeartbeat := now)), true)
    else
      (table, false)
  }

  // register_server: insert, or refresh and heal.
  function AfterRegister(rows: ServerTable, id: ServerId, now: int): ServerTable {
    rows[id := ServerRow(now, true)]
  }

  // send_heartbeat: the health flag is left as it is.
  function AfterHeartbeat(rows: ServerTable, id: ServerId, now: int): ServerTable {
    if id in rows then rows[id := rows[id].(lastHeartbeat := now)] else rows
  }

  // mark_servers_unhealthy, first statement.
  function AfterSweep(rows: ServerTable, cutoff: int): ServerTable {
    map id | id in rows :: if rows[id].lastHeartbeat < cutoff then rows[id].(isHealthy := false) else rows[id]
  }

  // mark_servers_unhealthy, second statement.
  function AfterDeactivate(agents: AgentTable, rows: ServerTable): AgentTable {
    map id | id in agents ::
      if agents[id].serverId in rows && !rows[agents[id].serverId].isHealthy
        then agents[id].(active := false) else agents[id]
  }

  // mark_server_unhealthy: a server's own shutdown.
  function AfterShutdown(rows: ServerTable, id: ServerId): ServerTable {
    if id in rows then rows[id := rows[id].(isHealthy := false)] else rows
  }

  // What can go wrong with an INSERT besides its key: it fails, or only its reply is lost.
  datatype Fault = NoFault | NotRun | ReplyLost

  // The table after the INSERT, and whether the caller saw it succeed.
  function AfterInsert(ports: PortTable, port: nat, row: TcpPortRow, fault: Fault): (PortTable, bool) {
    if port in ports || fault.NotRun? then (ports, false)
    else (ports[port := row], fault.NoFault?)
  }

  class Db {
    var clusterState: Option<ClusterRow>
    var servers: ServerTable
    var agents: AgentTable
    var tcpPorts: PortTable

    constructor ()
      ensures clusterState == INITIAL_TABLE && servers == map[] && agents == map[] && tcpPorts == map[]
    {
      clusterState := INITIAL_TABLE;
      servers := map[];
      agents := map[];
      tcpPorts := map[];
    }

    method GetClusterState() returns (state: Option<ClusterRow>)
      ensures state == SelectState(clusterState)
      ensures state.None? <==> clusterState.None?
      ensures state.Some? ==>
        var row := clusterState.value;
        state.value == row.(leaderId := if row.leaderId == Some("") then None else row.leaderId)
    {
      if clusterState.None? {
        return None;
      }
      var row := clusterState.value;
      var leaderId := row.leaderId;
      if leaderId.Some? && |leaderId.value| == 0 {
        leaderId := None;
      }
      state := Some(ClusterRow(leaderId, row.leaderTerm, row.lastHeartbeat));
    }

    method BecomeLeader(id: ServerId, term: int, now: int) returns (changed: bool)
      modifies this`clusterState
      ensures (clusterState, changed) == AfterAcquire(old(clusterState), id, term, now)
      ensures changed <==> (
        && old(clusterState).Some?
        && (old(clusterState).value.leaderId.None? || now - old(clusterState).value.lastHeartbeat > 15000))
      ensures clusterState == if changed then Some(ClusterRow(Some(id), term, now)) else old(clusterState)
    {
      changed := false;
      if clusterState.Some? {
        var row := clusterState.value;
        if row.leaderId.None? || row.lastHeartbeat < now - 15000 {
          clusterState := Some(row.(leaderId := Some(id), leaderTerm := term, lastHeartbeat := now));
          changed := true;
        }
      }
    }

    method RenewLeadership(id: ServerId, now: int) returns (changed: bool)
      modifies this`clusterState
      ensures (clusterState, changed) == AfterRenew(old(clusterState), id, now)
      ensures changed <==> old(clusterState).Some? && old(clusterState).value.leaderId == Some(id)
      ensures clusterState ==
        if changed then Some(ClusterRow(Some(id), old(clusterState).value.leaderTerm, now)) else old(clusterState)
    {
      changed := false;
      if clusterState.Some? && clusterState.value.leaderId == Some(id) {
        clusterState := Some(clusterState.value.(lastHeartbeat := now));
        changed := true;
      }
    }

    method RegisterServer(id: ServerId, now: int)
      modifies this`servers
      ensures servers == AfterRegister(old(servers), id, now)
      ensures servers == old(servers)[id := ServerRow(now, true)]
    {
      if id in servers {
        servers := servers[id := servers[id].(lastHeartbeat := now, isHealthy := true)];
      } else {
        servers := servers[id := ServerRow(now, true)];
      }
    }

    method SendHeartbeat(id: ServerId, now: int)
      modifies this`servers
      ensures servers == AfterHeartbeat(old(servers), id, now)
      ensures servers.Keys == old(servers).Keys
      ensures forall other :: other in servers ==>
        servers[other] == if other == id then ServerRow(now, old(servers)[id].isHealthy) else old(servers)[other]
    {
      if id in servers {
        servers := servers[id := ServerRow(now, servers[id].isHealthy)];
      }
    }

    // Both statements in order, with nothing between them.
    method MarkServersUnhealthy(now: int, timeoutMs: int)
      modifies this`servers, this`agents
      ensures servers == AfterSweep(old(servers), now - timeoutMs)
      ensures agents == AfterDeactivate(old(agents), servers)
      ensures servers.Keys == old(servers).Keys && agents.Keys == old(agents).Keys
      ensures forall id :: id in servers ==>
        && servers[id].lastHeartbeat == old(servers)[id].lastHeartbeat
        && (servers[id].isHealthy <==> old(servers)[id].isHealthy && servers[id].lastHeartbeat >= now - timeoutMs)
      ensures forall id :: id in agents ==>
        && agents[id].serverId == old(agents)[id].serverId
        && (agents[id].active <==> (
              && old(agents)[id].active
              && (agents[id].serverId in servers ==> servers[agents[id].serverId].isHealthy)))
    {
      var cutoff := now - timeoutMs;
      servers := map id | id in servers ::
        if servers[id].lastHeartbeat < cutoff && servers[id].isHealthy
          then ServerRow(servers[id].lastHeartbeat, false) else servers[id];
      var unhealthy := set id | id in servers && !servers[id].isHealthy;
      agents := map id | id in agents ::
        if agents[id].serverId in unhealthy && agents[id].active
          then AgentRow(agents[id].serverId, false) else agents[id];
    }

    method MarkServerUnhealthy(id: ServerId)
      modifies this`servers
      ensures servers == AfterShutdown(old(servers), id)
      ensures servers.Keys == old(servers).Keys
      ensures forall other :: other in servers ==>
        && servers[other].lastHeartbeat == old(servers)[other].lastHeartbeat
        && (servers[other].isHealthy <==> old(servers)[other].isHealthy && other != id)
    {
      if id in servers {
        servers := servers[id := ServerRow(servers[id].lastHeartbeat, false)];
      }
    }

    // The INSERT of allocate_tcp_port; the port is the primary key.
    method InsertTcpPort(port: nat, row: TcpPortRow, fault: Fault) returns (ok: bool)
      modifies this`tcpPorts
      ensures (tcpPorts, ok) == AfterInsert(old(tcpPorts), port, row, fault)
      ensures ok <==> port !in old(tcpPorts) && fault == NoFault
      ensures tcpPorts == if port in old(tcpPorts) || fault == NotRun then old(tcpPorts) else old(tcpPorts)[port := row]
    {
      ok := false;
      if port !in tcpPorts && !fault.NotRun? {
        tcpPorts := tcpPorts[port := row];
        ok := fault.NoFault?;
      }
    }

    method DeallocateTcpPort(port: nat)
      modifies this`tcpPorts
      ensures tcpPorts == old(tcpPorts) - {port}
    {
      tcpPorts := tcpPorts - {port};
    }
  }
}
