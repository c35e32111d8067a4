# jrok-rs, verified

A Dafny 4.11 model of the parts of jrok-rs that coordinate: the servers that elect a leader
through one shared database row, the failure detector beside it, the STUN response parser,
the table that matches agents' replies to waiting requests, the facilitation of TCP
sessions, the relay's accounting and the TCP port allocator. `dafny verify dfyconfig.toml`
checks everything.

## How it is modelled

**Leader lease** (`Database`, `Lease`, `LeaseRuns`, `LeaseInvariants`, `LeaseLimits`,
`LeaseLengths`, `ElectionSafety`, `Paces`, `Stability`, `StabilityLimits`, `Failover`,
`HeartbeatLoop`, `FlagHistory`). Every server runs the
same tick against one row. A tick is cut at its database calls, so a schedule is any sequence
of clock captures, reads, decisions, second reads, UPDATEs and replies of any number of
servers, in any order their own program counters allow. Each statement is atomic and takes
effect between its call and its return; it may fail and change nothing, or run and lose its
reply. Time is true time; a server's own clock is within `skew` of it and never runs back.
`delay` bounds, or does not bound, the true time from a clock capture to the UPDATE landing.
`timeout` is the configured leader timeout, any number, and is separate from the 15000 that
the acquiring UPDATE hard-codes. `HeartbeatLoop.Cluster.Tick` is the loop body written the
way the server runs it, proved to take exactly these steps.

**Failure detector** (`FailureDetector`, `DetectionTime`). Registrations, heartbeats and the two statements of
every server's sweep, interleaved in the same way over the servers and agents tables.

**STUN** (`Stun`, `StunClient`, `StunFormat`, `StunBytes`). A message is a header and a list of attributes
as RFC 5389 lays them out; the parser is the byte loop, proved equal on every byte sequence to
the meaning of the one attribute list those bytes can be read as.

**Requests** (`PendingRequests`, `RequestHistory`, `Base64`), **sessions** (`Sessions`), **relay
and tracker** (`RelayAccounting`, `RelayHistory`, `RelayServers`) and **ports** (`TcpPorts`). Each is a class whose methods
change their maps in place and are proved to take the steps of a transition system, whose
runs are then reasoned about. Steps are cut where the locks are released or a database
statement ends.

A punctual server is one whose statements run, whose captures are at most `gap` apart and
whose ticks end their database work within a delay of its own; replies to its UPDATEs may be
lost. Open time, below, is how long its tick can stay open, the smaller of gap and delay;
landing time is the smaller of that and the delay bound on every UPDATE. Each if-and-only-if is proved both ways, the
second by a concrete schedule, and those about the lease speak of all runs from start-up.
Renewing on time does not protect a leader whose first UPDATE was slow: with a timeout above
15000 a rival that saw the same unowned row can still take it
(`StabilityLimits.SlowWinnerIsDeposed`).

## Where the code and its documents disagree

- docs/ARCHITECTURE.md:256 says another server leads within 15 seconds of a leader's death.
  The row stands for 15000 ms after the last captured heartbeat, on a clock that may be ahead,
  and the survivor must still tick, on a clock that may be behind. Counted in true time from
  the last clock capture the leader wrote, over the runs whose survivor can finish its tick,
  the least bound is `max(timeout, 15000) + 2 skew + gap` plus the length of one last tick: its
  landing time in a cluster of two, its open time in a larger one, where a third server's
  election lets a tick that may no longer write end by observing. It stays the least when the
  leader writes at once and dies. So fifteen seconds are never enough, for any gap above zero
  (`Failover.FailoverTimeIsLeast`, `Failover.FifteenSecondsAreNotEnough`).
- Section 15.2 of RFC 5389 masks the port of XOR-MAPPED-ADDRESS; the parser reports the raw
  field, which is wrong for every port (`StunFormat.ReportedPortIsRightExactlyWhenPlain`).
- `relay_used` in src/tcp/mod.rs does not count relays: a connection is counted as direct
  exactly when its client's address is public, relay or not
  (`Sessions.ConnectionCountsByAddress`, `Sessions.RelayCountIsOffBy`); the agent's own
  `direct` flag (src/agent/mod.rs:156-160) is logged and dropped.

## Model

| member | source | states |
|---|---|---|
| Database.Db.constructor | migrations/001_init.sql:18-26 | the migrated database has the one leader row, unowned at term 0, and empty tables |
| Database.Db.GetClusterState | src/db/mod.rs:112-134 | the row as read, an empty leader id reading as none |
| Database.Db.BecomeLeader | src/db/mod.rs:136-146 | owner, term and time change together, exactly when the row is unowned or older than 15000 ms at the captured time; reports whether it did |
| Database.Db.RenewLeadership | src/db/mod.rs:148-157 | only the time changes, exactly when the row names the caller |
| Database.Db.RegisterServer | src/db/mod.rs:36-47 | a registration is fresh and healthy, whatever the row was |
| Database.Db.SendHeartbeat | src/db/mod.rs:49-58 | a heartbeat moves the time of an existing row and leaves its health alone |
| Database.Db.MarkServersUnhealthy | src/db/mod.rs:60-77 | row by row: a server is healthy afterwards exactly when it was and its heartbeat is not below the cutoff; an agent is active afterwards exactly when it was and its server has no unhealthy row; nothing else changes |
| Database.Db.MarkServerUnhealthy | src/db/mod.rs:79-87 | a shutting-down server's own row turns unhealthy, its time and the other rows stay |
| Database.Db.InsertTcpPort | src/db/mod.rs:438-443 | the primary key decides; a lost reply leaves the row and reports failure |
| Database.Db.DeallocateTcpPort | src/db/mod.rs:457-465 | the port's row goes, whoever asked |
| HeartbeatLoop.Cluster.Tick | src/cluster/mod.rs:59-106 | flag and row after the loop body, from what it met: unchanged after a failed call; raised by an acquisition won and heard of; after a renewal, up exactly if it ran, matched and was heard of; down when another's lease is live; and all this is what the protocol's steps give |
| HeartbeatLoop.Cluster.TryBecomeLeader | src/cluster/mod.rs:108-118 | second read, fallback to term 1, acquiring UPDATE: the protocol's steps; true exactly when the UPDATE ran, matched and its reply arrived |
| HeartbeatLoop.Cluster.RenewLeadership | src/cluster/mod.rs:120-125 | a renewal counts only if the statement ran, matched and its reply arrived |
| HeartbeatLoop.ScheduledTickIsARun | src/cluster/mod.rs:59-106 | a tick scheduled among any enabled steps of other servers is a run of the protocol, which leaves the flag and the written table the loop body computes |
| HeartbeatLoop.EveryTickIsTheLoopBody | src/cluster/mod.rs:59-106 | the other way round: in every run, a server's steps from a capture to the end of its tick are the loop body under the conditions it met |
| HeartbeatLoop.UndisturbedTickIsARun | src/cluster/mod.rs:59-106 | such a schedule exists for a tick nobody disturbs |
| FlagHistory.FlagIsTheLastVerdict | src/cluster/mod.rs:76-103 | in every run from start-up a flag is up exactly when the server's last decisive step was for it, read off the run and the tables its reads and UPDATEs met |
| LeaseInvariants.HeartbeatNeverDecreases | src/db/mod.rs:136-157 | between any two points of any run the row's heartbeat does not go back |
| LeaseInvariants.LeaseExclusivity | src/cluster/mod.rs:76-103 | with no bound on delays, whoever is inside its lease is named by the row, so at most one server is |
| LeaseInvariants.WriteBuysLease | src/db/mod.rs:136-157 | from a landed write with captured time n, in every continuation, the row names the writer up to true time n + 15000 - skew |
| LeaseLimits.TwoFlagsAtOnce | src/cluster/mod.rs:65-103 | the flags alone are not exclusive, under any skew, delay and timeout |
| LeaseLimits.PunctualWinnersFlagIsTheOnlyOne | src/cluster/mod.rs:76-103 | in every run from start-up whose first winner is punctual and fast enough, no other flag is ever up |
| LeaseLengths.LeaseLastsExactly | src/cluster/mod.rs:76-118 | for every skew, delay bound and timeout: a landed write holds the row for exactly max(timeout, 15000) - skew when delay + 2 skew <= 15000, and for exactly 15000 - skew otherwise |
| LeaseLengths.TakenAtExpiry | src/cluster/mod.rs:78-84 | the run in which a fast clock takes the row at the first instant after the lease |
| LeaseLengths.TakenByStaleRead | src/db/mod.rs:136-146 | the run in which a candidate that read an unowned row overruns a longer timeout after a slow write |
| ElectionSafety.TermsAreConsecutive | src/cluster/mod.rs:108-118 | with timely writes the k-th election of any run has term k + 1, and the row's term counts them |
| ElectionSafety.SlowWritesCollide | src/db/mod.rs:136-146 | beyond delay + 2 skew = 15000 two servers win the same term |
| ElectionSafety.FailedRereadCollides | src/cluster/mod.rs:109-112 | a failed second read elects term 1 again |
| ElectionSafety.OneLeaderPerTermExactlyWhenTimely | src/cluster/mod.rs:59-118 | no term has two leaders in any run if and only if delay + 2 skew <= 15000 and the second read cannot fail |
| Stability.PunctualLeaderIsNeverDeposed | src/cluster/mod.rs:78-94 | in every run from start-up in which a server is punctual and fast enough, once the row names it no continuation takes row or term from it, whatever replies are lost; its flag is up throughout if its own replies arrive |
| StabilityLimits.SlowWinnerIsDeposed | src/db/mod.rs:136-146 | a first UPDATE that takes too long: a rival that saw the same unowned row takes it just after |
| StabilityLimits.SlowLeaderIsDeposed | src/db/mod.rs:136-146 | one renewal too slow and a rival takes the row |
| StabilityLimits.LaggingLeaderReelectsItself | src/cluster/mod.rs:80-84 | a leader that judges its own lease expired misses tick after tick until it starts a new term itself |
| StabilityLimits.NeverDeposedExactlyWhenFastEnough | src/cluster/mod.rs:76-94 | over all runs from start-up in which it is punctual, a server the row names keeps row and term if and only if gap + open time + 2 skew <= max(timeout, 15000), the smaller of open time and the delay bound + 2 skew <= 15000, and gap + 2 skew <= timeout (or gap is 0 and no time passes) |
| Failover.RowStaysFresh | src/cluster/mod.rs:76-84 | from start-up, one punctual server keeps the row's heartbeat within the staleness bound, whoever writes it |
| Failover.FailoverWindow | src/cluster/mod.rs:76-84 | in every run from start-up, after a leader's last write at captured time h nothing changes until h + 15000 - skew, and some election has landed after h + staleness |
| Failover.ElectedWithinOpenTime | src/cluster/mod.rs:76-84 | in every run from start-up with a punctual server, some election has landed once true time is max(timeout, 15000) + 2 skew + gap + open time past the clock capture of a silent leader's last write |
| Failover.FailoverTimeIsLeast | src/cluster/mod.rs:76-84 | over the runs from start-up whose survivor can finish its tick, the least such bound is max(timeout, 15000) + 2 skew + gap plus landing time in a cluster of two, open time in a larger one (landing time again if the timeout is below -(open time + 2 skew)) |
| Failover.OverdueNeverRests | src/cluster/mod.rs:108-118 | why: a tick past the delay bound, before a row it cannot merely observe, ends in no continuation |
| Failover.FifteenSecondsAreNotEnough | docs/ARCHITECTURE.md:255-256 | for any gap above zero neither fifteen seconds nor max(timeout, 15000) + 2 skew is such a bound |
| FailureDetector.NeverSuspectedExactlyWhenTimeoutOutlasts | src/db/mod.rs:49-77 | over all runs from start-up, from its registration on a punctual server is never marked and loses no agent to any sweep if and only if gap + open time + 2 skew <= timeout |
| FailureDetector.RegisteredIsJustBeat | src/db/mod.rs:36-47 | a registration that lands on time, in any run from start-up, leaves a healthy row with the time it captured and no task ahead of its clock |
| FailureDetector.LateBeatIsSuspected | src/db/mod.rs:60-68 | a sweep on a fast clock marks a server whose beat is one millisecond too late |
| FailureDetector.OnlyRegistrationHeals | src/db/mod.rs:36-58 | of all statements only the server's own registration turns its row healthy again |
| FailureDetector.OnlySweepOrShutdownMarks | src/db/mod.rs:60-87 | a healthy row turns unhealthy exactly under a sweep whose cutoff is past its heartbeat or at its own server's shutdown |
| FailureDetector.OnlyBeatsMoveTime | src/db/mod.rs:36-58 | a row appears with its server's registration, and its time moves exactly when a beat of that server lands, to the captured time |
| FailureDetector.OnlyDeactivated | src/db/mod.rs:69-74 | an agent stops being active exactly when a second statement runs while its server's row is unhealthy; no step activates one |
| FailureDetector.InactiveStaysInactive | src/db/mod.rs:69-74 | over every run an inactive agent stays as it is |
| FailureDetector.SweepsInOrder | src/db/mod.rs:60-77 | the cutoff is the captured time less the timeout, and the second statement follows exactly a first one that ran and was heard of |
| FailureDetector.MarkedStaysMarked | src/cluster/mod.rs:127-135 | without one, a marked server stays marked through every run, and a full sweep leaves it no active agent |
| DetectionTime.MarkingTimeIsLeast | src/cluster/mod.rs:127-135 | over all runs from start-up in which some server sweeps on time, max(0, timeout + 2 skew) + gap + open time of its sweeps is the least bound, since a server's last beat landed, by which it is marked |
| DetectionTime.LatestMark | src/db/mod.rs:60-68 | the run in which a dead server stays healthy up to that bound |
| StunClient.PaddingExpression | src/stun/mod.rs:217 | clearing the low two bits of len + 3 in 64 bits is rounding up to a multiple of four |
| StunClient.ParseMappedAddress | src/stun/mod.rs:263-296 | an address exactly from eight bytes or more of family 1, the IP unmasked by type, the port as it stands |
| StunBytes.DecodesExactly | src/stun/mod.rs:263-296 | on the bytes: which values decode, the port big-endian, each octet of an XOR-MAPPED address differing bit by bit by the cookie's |
| StunBytes.HeaderVerdict | src/stun/mod.rs:174-200 | on the bytes: too short, wrong cookie, wrong type, in this order and for no other response |
| StunBytes.OutcomeByBytes | src/stun/mod.rs:225-259 | of a list: error exactly with an ERROR-CODE, no address exactly without one and without an IPv4 address of eight bytes, an address otherwise |
| StunBytes.NonIPv4Response | src/stun/mod.rs:225-293 | address attributes that are IPv6 or too short give no address alone and leave an earlier answer as it was |
| StunBytes.OneAttributeResponse | src/stun/mod.rs:173-296 | the outcome of every response that is one attribute of eight bytes, byte for byte |
| StunBytes.AnnouncedLength | src/stun/mod.rs:207-221 | an announced length ends the reading at the first attribute that starts past it; one that starts inside is read whole |
| StunClient.ParseStunResponse | src/stun/mod.rs:173-260 | on every byte sequence the loop stays in range, ends, and returns the meaning of the attributes read |
| StunFormat.DecodeExactly | src/stun/mod.rs:207-243 | those attributes are the only list that, serialized, starts the body, starts each attribute inside the announced length, and cannot be extended |
| StunFormat.SerializedMessageRoundTrips | src/stun/mod.rs:173-260 | any serialized attribute list, with any padding bytes and any trailing bytes, parses to its meaning |
| StunFormat.FitWholeExactly | src/stun/mod.rs:217-221 | the count taken at a cut is right: that many attributes fit whole and the next one's does not |
| StunFormat.TruncatedMessageKeepsWholeAttributes | src/stun/mod.rs:173-221 | at every cut: inside the header too short, after it the meaning of the attributes that still fit with their padding |
| StunFormat.LastDecodableWins | src/stun/mod.rs:225-259 | an address comes out if and only if there is no ERROR-CODE and that address is the last decodable one |
| StunFormat.PortIsRightExactlyWhenPlain | src/stun/mod.rs:270-287 | for addresses written as the RFC says: the IP always right, the port right if and only if the attribute is the plain one |
| StunFormat.ReportedPortIsRightExactlyWhenPlain | src/stun/mod.rs:173-260 | for a whole response with any trailing bytes: the IP reported is right, and the port is if and only if the last decodable attribute is the plain one |
| Base64.DecodesExactly | src/agent/registry.rs:186-191 | a text decodes exactly when it is the encoding of some bytes, and to those; decoding inverts encoding on every byte string |
| Base64.EncodesBits | src/agent/mod.rs:107 | each group is the 24-bit number of its octets in the symbols of RFC 4648's alphabet, padded with '=' |
| PendingRequests.AgentRegistry.CreatePendingRequest | src/agent/registry.rs:168-172 | a new empty channel under this id; an entry already there loses its sender; nothing else changes |
| PendingRequests.AgentRegistry.RemovePendingRequest | src/agent/registry.rs:174-176 | the entry and its sender go, other entries stay |
| PendingRequests.AgentRegistry.HandleResponse | src/agent/registry.rs:178-202 | the entry is taken out and its channel filled with status, headers and decoded body; an unknown id changes nothing |
| PendingRequests.ProxyHttp | src/tunnel/mod.rs:68-81 | whatever replies arrive meanwhile: 502 on a failed send, else the first reply with this id, else 504; the entry is gone, and the entries and channels of requests no reply bears are untouched |
| PendingRequests.BodyIsTransparent | src/agent/mod.rs:104-109 | the waiting request receives the agent's status, headers and exact body, through encoding and decoding |
| RequestHistory.WaitingHoldsTheFirstArrival | src/agent/mod.rs:104-109 | in every run a waiting request's channel is full exactly when a registered agent's message with its id has arrived since it was created, read off the run, and holds the first |
| RequestHistory.UnregisteredIsIgnored | src/agent/mod.rs:104-109 | a message from a socket that never registered changes nothing |
| RequestHistory.PhaseIsItsHistory | src/tunnel/mod.rs:68-81 | every request stands where its own last step left it: answered with the first registered arrival, refused (502) or timed out (504) |
| RequestHistory.ProxyHttpIsARun | src/tunnel/mod.rs:68-81 | for any replies meanwhile there is a run of the protocol that ends with the method's outcome |
| PendingRequests.AnswersMatchRequests | src/agent/registry.rs:178-202 | in every run an answer is the first reply bearing the request's id since it was created |
| PendingRequests.AnswersAreFinal | src/tunnel/mod.rs:75-81 | a finished request never changes again |
| PendingRequests.ChannelNeverClosesOnAWaiter | src/tunnel/mod.rs:77 | with fresh ids the closed-channel case never arises for a waiting request |
| PendingRequests.TableHoldsTheOutstanding | src/agent/registry.rs:168-202 | the table holds exactly the requests created, not removed and not replied to |
| RequestHistory.TableHoldsTheUnanswered | src/agent/registry.rs:168-202 | the same read off the run: the ids of requests no registered message has answered and that have not removed themselves |
| PendingRequests.TableDrainsUnlessCancelled | src/tunnel/mod.rs:68-81 | when all requests have ended the table is empty if and only if every dropped proxy future had been replied to |
| Sessions.ConnectionFacilitator.RequestConnection | src/tcp/mod.rs:179-239 | which of the four outcomes the caller is told, and the session stored exactly for a TCP agent, classified from the client's address, even if the send fails |
| Sessions.ConnectionFacilitator.AgentListening | src/tcp/mod.rs:242-280 | endpoint and agent NAT recorded, then hole punching or ready |
| Sessions.ConnectionFacilitator.ClientConnected | src/tcp/mod.rs:283-305 | connected, and one counter moves by the session's classification |
| Sessions.ConnectionFacilitator.ConnectionFailed | src/tcp/mod.rs:308-337 | relayed, with the session's own relay endpoint recorded and returned |
| Sessions.ConnectionFacilitator.CleanupSessions | src/tcp/mod.rs:345-365 | exactly the sessions created after the cutoff stay, unchanged |
| Sessions.SessionsAreConsistent | src/tcp/mod.rs:179-337 | in every run: direct if and only if the client is a public IPv4 address; hole punching, ready and finding-agent sessions are what their status says; three statuses never occur |
| Sessions.SessionsAreTheirRequests | src/tcp/mod.rs:191-221 | in every run an id has a session exactly when its last request that met a TCP agent is younger than every cleanup since allows, with that request's agent, client and time |
| Sessions.ClassificationIsFixed | src/tcp/mod.rs:202-219 | a session's client, classification, agent and age never change |
| Sessions.SessionIsItsHistory | src/tcp/mod.rs:242-337 | a living session's endpoint and agent NAT are those of the last report, and its status is decided by the last event alone |
| Sessions.RelaysAndCountersBalance | src/tcp/mod.rs:283-365 | relayed sessions have their own relay entries and never outnumber them; the two counters sum to the successful connections, split by client address |
| Sessions.ConnectionCountsByAddress | src/tcp/mod.rs:283-305 | in every reachable state a connection raises the direct counter if and only if the session's client is public, else the relay counter, so it is counted as what it is if and only if fell back and not public coincide |
| Sessions.RelayEntryIsAFallback | src/tcp/mod.rs:308-337 | an id has a relay entry if and only if a failure report found its session |
| Sessions.RelayCountIsOffBy | src/tcp/mod.rs:283-337 | over a whole run the relay counter misses the relayed connections of public clients and includes the direct ones of the others, exactly |
| Sessions.RelayedConnectionCountsAsDirect | src/tcp/mod.rs:57-63 | the run in which a connection over a relay counts as direct |
| RelayAccounting.BytesAreConserved | src/relay/mod.rs:187-288 | in every run accepted bytes are those of open connections plus those closed, swept or overwritten, and each open connection holds what was sent since its creation |
| RelayAccounting.TrackerStaysWithinItsCounters | src/relay/mod.rs:49-150 | entries never exceed attempts, and flagged entries never exceed the two success counters |
| RelayAccounting.FlagsAreMarksSinceStore | src/relay/mod.rs:71-104 | an entry's two flags are exactly the marks made on it since it was last stored |
| RelayHistory.StandingIsHistory | src/relay/mod.rs:137-288 | entries and relay connections stand exactly from their last store or creation until a close or a sweep whose cutoff reaches their time |
| RelayHistory.CountersAreHistory | src/relay/mod.rs:49-104 | each counter is the number of times it was due: attempts, successes marked direct, successes and failures over a relay, of standing entries only; the bytes taken are those sent on open connections |
| RelayServers.ConnectionTracker.TrackAttempt | src/relay/mod.rs:49-68 | both halves in order; the object keeps its entries within its counters |
| RelayServers.ConnectionTracker.MarkSuccess | src/relay/mod.rs:71-89 | the entry is flagged and one counter moves, keeping entries within counters; an unknown id changes nothing |
| RelayServers.ConnectionTracker.MarkFailed | src/relay/mod.rs:92-104 | completion always, flag and counter only for a relay, keeping entries within counters |
| RelayServers.ConnectionTracker.CleanupOld | src/relay/mod.rs:137-150 | exactly the younger entries stay; counters do not move; the object keeps its entries within its counters |
| RelayServers.RelayServer.CreateRelay | src/relay/mod.rs:187-210 | a fresh connection, retiring the bytes of one it overwrites; the object's bytes stay balanced |
| RelayServers.RelayServer.Relay | src/relay/mod.rs:213-252 | bytes land on an open connection or are refused; the object's bytes stay balanced |
| RelayServers.RelayServer.CloseRelay | src/relay/mod.rs:255-267 | the connection goes and the tracker records relay use, only if it was open; bytes and tracker stay balanced |
| RelayServers.RelayServer.CleanupOld | src/relay/mod.rs:275-288 | exactly the younger connections stay; the others' bytes are retired, so the object's bytes stay balanced |
| TcpPorts.AllocateTcpPort | src/db/mod.rs:436-455 | the lowest port that is free and whose INSERT reports success, else none; every row a lost reply leaves behind is accounted for |
| TcpPorts.AllocateWithoutFaults | src/db/mod.rs:436-455 | alone and without faults: the lowest free port, none exactly when the range is full |
| TcpPorts.TurnsAreTheLoop | src/db/mod.rs:436-455 | a concurrent call's turns, taken with nobody in between, end exactly as the loop does |
| TcpPorts.AllocationsNeverCollide | src/db/mod.rs:436-465 | however concurrent INSERTs interleave, live allocations are distinct, in range, and own their rows; every other row is one whose reply was lost |
| TcpPorts.StrayDeleteCollides | src/db/mod.rs:457-465 | a run from the empty table in which freeing a port someone holds gives it out twice |
| TcpPorts.DeleteIsSafeExactlyWhenUnheld | src/db/mod.rs:457-465 | after freeing a port every considerate continuation keeps live allocations distinct if and only if no call held it |

## Left out

- Assumed of the environment: server ids are unique and not empty, one sequential process runs per id, true time and each server's clock never run back, and a statement never takes effect after its call has returned or its process has restarted.
- All servers share one configured leader timeout.
- Process restarts: a server's tick is never abandoned with its statement in flight.
- Integer widths: terms, times, counters and byte counts are unbounded; the source uses 64-bit integers that real values do not reach. STUN lengths, ports and the padding expression keep their widths.
- Request and session ids are fresh (version 4 UUIDs in the source); the race in which the timer fires although the response is already there is allowed to go either way.
- Cancelled proxy futures are modelled; sockets, WebSocket framing, JSON, HTTP handlers (and what they make of a status or header that is not valid HTTP), logging, configuration and the command line are not.
- The agent registry's other map, its registration and `cleanup_stale`; `send_message` succeeds or fails arbitrarily.
- Agents' own timeouts (`cleanup_stale_agents`) and their deactivation when a server shuts down; a shutdown marks the server's row.
- The agents and tunnels upserts: the agents one names a conflict target that the schema does not declare unique.
- API keys and their hashing.
- NAT detection over sockets, hole punching, `determine_strategy` and the second STUN parser in src/nat/mod.rs; NAT information is reduced to its type.
- `StunServer::from_str`, the server fallback loop and the dotted form of an IP: an address is its four octets. The endpoint's `local_addr` and `stun_server` strings are passed through and not modelled.
- Client addresses arrive parsed: an IPv4 or IPv6 address, or none when the text does not parse.
- Success rates as floating-point numbers.
- Tracker fields no invariant reads (subdomain, addresses, latency) and the sockets of a relay connection.
