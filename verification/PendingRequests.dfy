/** Request correlation: every proxied request waits in one shared table for the reply that
    bears its id, while sends fail, timers fire and agents reply late, twice or at random. */
module PendingRequests {
  import opened Common
  import Base64

  type RequestId = string
  type Body = seq<byte>
  type Headers = map<string, string>

  // An agent's HttpResponse message, and what the waiting request receives for it.
  datatype Message = Message(status: int, headers: Headers, body: Option<Body>)
  datatype Response = Response(status: int, headers: Headers, body: Body)

  // ---------- The table ----------

  // A oneshot channel: empty, holding its one response, or abandoned by its sender.
  datatype Channel = Empty | Full(response: Response) | Closed

  // The pending map names, for each request id, the channel whose sender it holds; a channel
  // has one sender.
  datatype Table = Table(pending: map<RequestId, nat>, channels: seq<Channel>) {
    predicate Valid() {
      && (forall id :: id in pending ==> pending[id] < |channels|)
      && (forall id, other :: id in pending && other in pending && id != other ==> pending[id] != pending[other])
    }
  }

  // create_pending_request: a new channel; an entry already there loses its sender.
  function AfterCreate(t: Table, id: RequestId): (t': Table)
    requires t.Valid()
    ensures t'.Valid()
  {
    var channels := if id in t.pending then t.channels[t.pending[id] := Closed] else t.channels;
    Table(t.pending[id := |t.channels|], channels + [Empty])
  }

  // remove_pending_request: the sender, if still there, is dropped.
  function AfterRemove(t: Table, id: RequestId): (t': Table)
    requires t.Valid()
    ensures t'.Valid()
  {
    if id in t.pending then Table(t.pending - {id}, t.channels[t.pending[id] := Closed]) else t
  }

  // The dispatcher encodes the body; handle_response decodes it, or falls back to empty.
  function Dispatched(m: Message): Option<string> {
    if m.body.Some? then Some(Base64.Encode(m.body.value)) else None
  }

  function Received(status: int, headers: Headers, body: Option<string>): Response {
    Response(status, headers, match body
                              case None => []
                              case Some(text) => (match Base64.Decode(text) case Some(b) => b case None => []))
  }

  // handle_response: take the sender out and send; unknown ids change nothing.
  function AfterResponse(t: Table, id: RequestId, status: int, headers: Headers, body: Option<string>): (t': Table)
    requires t.Valid()
    ensures t'.Valid()
  {
    if id in t.pending
      then Table(t.pending - {id}, t.channels[t.pending[id] := Full(Received(status, headers, body))]) else t
  }

  class AgentRegistry {
    var pending: map<RequestId, nat>
    var channels: seq<Channel>

    predicate Valid()
      reads this
    {
      View().Valid()
    }

    function View(): Table
      reads this
    {
      Table(pending, channels)
    }

    constructor ()
      ensures Valid() && View() == Table(map[], [])
    {
      pending := map[];
      channels := [];
    }

    method CreatePendingRequest(id: RequestId) returns (receiver: nat)
      requires Valid()
      modifies this
      ensures Valid() && View() == AfterCreate(old(View()), id)
      ensures receiver == |old(channels)| && pending == old(pending)[id := receiver]
      ensures channels ==
        (if id in old(pending) then old(channels)[old(pending)[id] := Closed] else old(channels)) + [Empty]
    {
      receiver := |channels|;
      if id in pending {
        channels := channels[pending[id] := Closed];
      }
      channels := channels + [Empty];
      pending := pending[id := receiver];
    }

    method RemovePendingRequest(id: RequestId)
      requires Valid()
      modifies this
      ensures Valid() && View() == AfterRemove(old(View()), id)
      ensures pending == old(pending) - {id}
      ensures channels == if id in old(pending) then old(channels)[old(pending)[id] := Closed] else old(channels)
    {
      if id in pending {
        channels := channels[pending[id] := Closed];
        pending := pending - {id};
      }
    }

    method HandleResponse(id: RequestId, status: int, headers: Headers, body: Option<string>)
      requires Valid()
      modifies this
      ensures Valid() && View() == AfterResponse(old(View()), id, status, headers, body)
      ensures pending == old(pending) - {id}
      ensures id !in old(pending) ==> channels == old(channels)
      ensures id in old(pending) ==>
        var decoded := if body.Some? then Base64.Decode(body.value) else None;
        channels == old(channels)[old(pending)[id] :=
          Full(Response(status, headers, if decoded.Some? then decoded.value else []))]
    {
      if id in pending {
        var sender := pending[id];
        pending := pending - {id};
        var bodyBytes: Body := [];
        if body.Some? {
          var decoded := Base64.Decode(body.value);
          if decoded.Some? {
            bodyBytes := decoded.value;
          }
        }
        channels := channels[sender := Full(Response(status, headers, bodyBytes))];
      }
    }
  }

  // ---------- The protocol ----------

  datatype Phase =
    | Created                      // entry made, message not yet handed to the agent
    | Waiting
    | SendFailed                   // removal due
    | Expired                      // timer fired or channel closed; removal due
    | Answered(response: Response)
    | BadGateway
    | GatewayTimeout
    | Cancelled                    // the proxy future was dropped

  // `since` is the number of replies that had arrived when the request was created.
  datatype Request = Request(id: RequestId, channel: nat, since: nat, phase: Phase)

  datatype Reply = Reply(id: RequestId, message: Message)

  datatype World = World(table: Table, requests: seq<Request>, replies: seq<Reply>)

  datatype Action =
    | Create(id: RequestId)
    | Send(r: nat, ok: bool)
    | Receive(r: nat)              // the timed wait finds the channel full or closed
    | Timeout(r: nat)
    | Remove(r: nat)
    | Cancel(r: nat)
    | Arrive(registered: bool, reply: Reply) // any message from any agent, at any time

  predicate Live(phase: Phase) {
    phase.Created? || phase.Waiting? || phase.SendFailed? || phase.Expired?
  }

  predicate Enabled(w: World, a: Action) {
    w.table.Valid() && match a
    case Create(_) => true
    case Arrive(_, _) => true
    case Send(r, _) => r < |w.requests| && w.requests[r].phase.Created?
    case Receive(r) =>
      && r < |w.requests| && w.requests[r].phase.Waiting?
      && w.requests[r].channel < |w.table.channels| && !w.table.channels[w.requests[r].channel].Empty?
    case Timeout(r) => r < |w.requests| && w.requests[r].phase.Waiting?
    case Remove(r) => r < |w.requests| && (w.requests[r].phase.SendFailed? || w.requests[r].phase.Expired?)
    case Cancel(r) => r < |w.requests| && Live(w.requests[r].phase)
  }

  function WithPhase(w: World, r: nat, phase: Phase): World
    requires r < |w.requests|
  {
    w.(requests := w.requests[r := w.requests[r].(phase := phase)])
  }

  function Apply(w: World, a: Action): World
    requires Enabled(w, a)
  {
    match a
    case Create(id) =>
      World(AfterCreate(w.table, id), w.requests + [Request(id, |w.table.channels|, |w.replies|, Created)], w.replies)
    case Send(r, ok) => WithPhase(w, r, if ok then Waiting else SendFailed)
    case Receive(r) =>
      var channel := w.table.channels[w.requests[r].channel];
      WithPhase(w, r, if channel.Full? then Answered(channel.response) else Expired)
    case Timeout(r) => WithPhase(w, r, Expired)
    case Remove(r) =>
      WithPhase(w.(table := AfterRemove(w.table, w.requests[r].id)), r,
                if w.requests[r].phase.SendFailed? then BadGateway else GatewayTimeout)
    case Cancel(r) => WithPhase(w, r, Cancelled)
    case Arrive(registered, reply) =>
      if !registered then w
      else
        var Message(status, headers, _) := reply.message;
        World(AfterResponse(w.table, reply.id, status, headers, Dispatched(reply.message)),
              w.requests, w.replies + [reply])
  }

  const INITIAL: World := World(Table(map[], []), [], [])

  // Request ids are fresh: no two requests ever share one.
  predicate Fresh(w: World, a: Action) {
    a.Create? ==> forall r :: 0 <= r < |w.requests| ==> w.requests[r].id != a.id
  }

  predicate FreshRun(w: World, run: seq<Action>)
    decreases |run|
  {
    run == [] || (Enabled(w, run[0]) && Fresh(w, run[0]) && FreshRun(Apply(w, run[0]), run[1..]))
  }

  function Exec(w: World, run: seq<Action>): World
    requires FreshRun(w, run)
    decreases |run|
  {
    if run == [] then w else Exec(Apply(w, run[0]), run[1..])
  }

  // ---------- What every run keeps ----------

  // The first reply bearing this id since a given point.
  function FirstReply(replies: seq<Reply>, since: nat, id: RequestId): Option<Message>
    decreases |replies|
  {
    if |replies| <= since then None
    else
      var earlier := FirstReply(replies[..|replies| - 1], since, id);
      var last := replies[|replies| - 1];
      if earlier.Some? then earlier else if last.id == id then Some(last.message) else None
  }

  // The response an agent's message stands for: its own status and headers and exactly its
  // own body.
  function Delivered(m: Message): Response {
    Response(m.status, m.headers, if m.body.Some? then m.body.value else [])
  }

  lemma BodyIsTransparent(m: Message)
    ensures Received(m.status, m.headers, Dispatched(m)) == Delivered(m)
  {
    if m.body.Some? {
      Base64.DecodeEncode(m.body.value);
    }
  }

  function FirstFor(w: World, q: Request): Option<Message> {
    FirstReply(w.replies, q.since, q.id)
  }

  // One request: its table entry stands exactly while it is neither removed nor answered,
  // and its channel holds the first reply that bore its id.
  ghost predicate RequestOk(w: World, r: nat)
    requires r < |w.requests|
  {
    var q := w.requests[r];
    && q.channel == r && r < |w.table.channels| && q.since <= |w.replies|
    && (q.id in w.table.pending <==> (Live(q.phase) || q.phase.Cancelled?) && FirstFor(w, q).None?)
    && (q.id in w.table.pending ==> w.table.pending[q.id] == r)
    && (q.phase.Created? || q.phase.Waiting? ==>
          w.table.channels[r] == (match FirstFor(w, q) case None => Empty case Some(m) => Full(Delivered(m))))
    && (q.phase.Answered? ==> FirstFor(w, q).Some? && q.phase.response == Delivered(FirstFor(w, q).value))
  }

  // Ids are distinct, and every entry is its request's own.
  ghost predicate EntriesOk(w: World) {
    && |w.requests| == |w.table.channels|
    && (forall r, s :: 0 <= r < s < |w.requests| ==> w.requests[r].id != w.requests[s].id)
    && (forall id :: id in w.table.pending ==>
          w.table.pending[id] < |w.requests| && w.requests[w.table.pending[id]].id == id)
  }

  ghost predicate Inv(w: World) {
    w.table.Valid() && EntriesOk(w) && forall r :: 0 <= r < |w.requests| ==> RequestOk(w, r)
  }

  lemma FirstReplyOfOneMore(replies: seq<Reply>, reply: Reply, since: nat, id: RequestId)
    requires since <= |replies|
    ensures FirstReply(replies + [reply], since, id) ==
            if FirstReply(replies, since, id).Some? then FirstReply(replies, since, id)
            else if reply.id == id then Some(reply.message) else None
  {
    assert (replies + [reply])[..|replies|] == replies;
  }

  lemma ArrivalKeepsRequest(w: World, a: Action, r: nat)
    requires Inv(w) && Enabled(w, a) && a.Arrive? && r < |w.requests|
    ensures RequestOk(Apply(w, a), r)
  {
    assert RequestOk(w, r);
    if a.registered {
      FirstReplyOfOneMore(w.replies, a.reply, w.requests[r].since, w.requests[r].id);
      BodyIsTransparent(a.reply.message);
      hide FirstReply, Received, Dispatched;
    }
  }

  lemma StepRequest(w: World, a: Action, r: nat)
    requires Inv(w) && Enabled(w, a) && Fresh(w, a) && r < |w.requests|
    ensures RequestOk(Apply(w, a), r)
  {
    hide FirstReply, Delivered, Table.Valid;
    assert RequestOk(w, r);
    match a
    case Arrive(_, _) => ArrivalKeepsRequest(w, a, r);
    case Remove(s) => assert RequestOk(w, s);
    case _ =>
  }

  lemma StepEntries(w: World, a: Action)
    requires EntriesOk(w) && Enabled(w, a) && Fresh(w, a)
    ensures EntriesOk(Apply(w, a))
  {
    hide Received, Dispatched, Table.Valid, FirstReply;
    match a
    case Create(_) =>
    case Remove(_) =>
    case Arrive(_, _) =>
    case _ =>
  }

  lemma StepInv(w: World, a: Action)
    requires Inv(w) && Enabled(w, a) && Fresh(w, a)
    ensures Inv(Apply(w, a))
  {
    StepEntries(w, a);
    var w' := Apply(w, a);
    forall r | 0 <= r < |w'.requests|
      ensures RequestOk(w', r)
    {
      if r < |w.requests| {
        StepRequest(w, a, r);
      } else {
        NewRequest(w, a.id);
      }
    }
    assert w'.table.Valid();
    hide EntriesOk, RequestOk;
  }

  lemma NewRequest(w: World, id: RequestId)
    requires Inv(w) && Enabled(w, Create(id))
    ensures RequestOk(Apply(w, Create(id)), |w.requests|)
  {
  }

  lemma {:induction false} RunInv(w: World, run: seq<Action>)
    requires Inv(w) && FreshRun(w, run)
    ensures Inv(Exec(w, run))
    decreases |run|
  {
    if run == [] {
    } else {
      StepInv(w, run[0]);
      RunInv(Apply(w, run[0]), run[1..]);
    }
  }

  // In every run each request is answered, if at all, with the first reply that bore its id
  // after it was created, status, headers and body untouched.
  lemma AnswersMatchRequests(run: seq<Action>, r: nat)
    requires FreshRun(INITIAL, run) && r < |Exec(INITIAL, run).requests|
    ensures var w := Exec(INITIAL, run);
            var q := w.requests[r];
            q.phase.Answered? ==>
              FirstFor(w, q).Some? && q.phase.response == Delivered(FirstFor(w, q).value)
  {
    RunInv(INITIAL, run);
    assert RequestOk(Exec(INITIAL, run), r);
  }

  // An answer is final: no later step gives the request another one.
  lemma {:induction false} AnswersAreFinal(w: World, run: seq<Action>, r: nat)
    requires FreshRun(w, run) && r < |w.requests| && !Live(w.requests[r].phase)
    ensures r < |Exec(w, run).requests| && Exec(w, run).requests[r] == w.requests[r]
    decreases |run|
  {
    if run == [] {
    } else {
      AnswersAreFinal(Apply(w, run[0]), run[1..], r);
    }
  }

  // With fresh ids a waiting request never finds its channel closed, so the closed-channel
  // half of the timeout branch is never taken.
  lemma ChannelNeverClosesOnAWaiter(run: seq<Action>, r: nat)
    requires FreshRun(INITIAL, run) && r < |Exec(INITIAL, run).requests|
    requires Exec(INITIAL, run).requests[r].phase.Waiting?
    ensures var w := Exec(INITIAL, run);
            var q := w.requests[r];
            q.channel < |w.table.channels| && !w.table.channels[q.channel].Closed?
  {
    RunInv(INITIAL, run);
    assert RequestOk(Exec(INITIAL, run), r);
  }

  // Still in the table: created, not removed, and no reply has borne its id.
  predicate Outstanding(w: World, q: Request) {
    (Live(q.phase) || q.phase.Cancelled?) && FirstFor(w, q).None?
  }

  lemma TableHoldsTheOutstanding(run: seq<Action>, id: RequestId)
    requires FreshRun(INITIAL, run)
    ensures var w := Exec(INITIAL, run);
            id in w.table.pending <==>
              exists r :: 0 <= r < |w.requests| && w.requests[r].id == id && Outstanding(w, w.requests[r])
  {
    RunInv(INITIAL, run);
    var w := Exec(INITIAL, run);
    if id in w.table.pending {
      var r := w.table.pending[id];
      assert RequestOk(w, r);
      assert w.requests[r].id == id && Outstanding(w, w.requests[r]);
    }
    if exists r :: 0 <= r < |w.requests| && w.requests[r].id == id && Outstanding(w, w.requests[r]) {
      var r :| 0 <= r < |w.requests| && w.requests[r].id == id && Outstanding(w, w.requests[r]);
      assert RequestOk(w, r);
    }
  }

  // Once every request has ended the table is empty, except for an entry per request whose
  // proxy future was dropped before any reply bore its id.
  lemma TableDrainsUnlessCancelled(run: seq<Action>)
    requires FreshRun(INITIAL, run)
    requires forall r :: 0 <= r < |Exec(INITIAL, run).requests| ==> !Live(Exec(INITIAL, run).requests[r].phase)
    ensures var w := Exec(INITIAL, run);
            w.table.pending == map[] <==>
            forall r :: 0 <= r < |w.requests| && w.requests[r].phase.Cancelled? ==> FirstFor(w, w.requests[r]).Some?
  {
    RunInv(INITIAL, run);
    var w := Exec(INITIAL, run);
    forall r | 0 <= r < |w.requests|
      ensures w.requests[r].id in w.table.pending <==>
          w.requests[r].phase.Cancelled? && FirstFor(w, w.requests[r]).None?
    {
      assert RequestOk(w, r);
    }
    if w.table.pending != map[] {
      var id :| id in w.table.pending;
      assert w.requests[w.table.pending[id]].id == id;
    }
  }

  // ---------- One proxied request ----------

  predicate Unmentioned(replies: seq<Reply>, id: RequestId) {
    forall reply :: reply in replies ==> reply.id != id
  }

  // This request's entry and its channel are as they were.
  predicate Untouched(t: Table, t': Table, id: RequestId)
    requires id in t.pending && t.pending[id] < |t.channels|
  {
    && id in t'.pending && t'.pending[id] == t.pending[id]
    && t.pending[id] < |t'.channels| && t'.channels[t.pending[id]] == t.channels[t.pending[id]]
  }

  // Requests other than this one that none of these replies bears are untouched.
  predicate LeavesOthers(t: Table, t': Table, id: RequestId, replies: seq<Reply>)
    requires t.Valid()
  {
    forall other | other in t.pending && other != id && Unmentioned(replies, other) :: Untouched(t, t', other)
  }

  // The request's channel after these replies, and its entry while none bore its id.
  predicate Awaits(t: Table, id: RequestId, receiver: nat, replies: seq<Reply>) {
    receiver < |t.channels|
    && match FirstReply(replies, 0, id)
       case None => id in t.pending && t.pending[id] == receiver && t.channels[receiver] == Empty
       case Some(m) => id !in t.pending && t.channels[receiver] == Full(Delivered(m))
                       && forall other :: other in t.pending ==> t.pending[other] != receiver
  }

  lemma CreateAwaits(t: Table, id: RequestId)
    requires t.Valid()
    ensures Awaits(AfterCreate(t, id), id, |t.channels|, []) && LeavesOthers(t, AfterCreate(t, id), id, [])
  {
  }

  lemma ResponseAwaits(t: Table, id: RequestId, receiver: nat, replies: seq<Reply>, reply: Reply)
    requires t.Valid() && Awaits(t, id, receiver, replies)
    ensures var Message(status, headers, _) := reply.message;
            Awaits(AfterResponse(t, reply.id, status, headers, Dispatched(reply.message)), id, receiver,
                   replies + [reply])
  {
    FirstReplyOfOneMore(replies, reply, 0, id);
    BodyIsTransparent(reply.message);
    hide FirstReply, Received, Dispatched;
  }

  lemma ResponseLeavesOthers(before: Table, t: Table, id: RequestId, replies: seq<Reply>, reply: Reply)
    requires before.Valid() && t.Valid() && LeavesOthers(before, t, id, replies)
    ensures var Message(status, headers, _) := reply.message;
            LeavesOthers(before, AfterResponse(t, reply.id, status, headers, Dispatched(reply.message)), id,
                         replies + [reply])
  {
    hide Received, Dispatched;
    assert forall r :: r in replies ==> r in replies + [reply];
    assert reply in replies + [reply];
  }

  lemma RemoveLeavesOthers(before: Table, t: Table, id: RequestId, replies: seq<Reply>)
    requires before.Valid() && t.Valid() && LeavesOthers(before, t, id, replies)
    ensures LeavesOthers(before, AfterRemove(t, id), id, replies)
  {
  }

  // The requester's side of proxy_http, alone with the replies that arrive while it waits.
  // `expires`: the timer wins the race even if the response is there.
  method ProxyHttp(registry: AgentRegistry, id: RequestId, sendOk: bool, meanwhile: seq<Reply>, expires: bool)
    returns (outcome: Phase)
    requires registry.Valid()
    modifies registry
    ensures registry.Valid() && id !in registry.pending
    ensures outcome == (
      var first := FirstReply(meanwhile, 0, id);
      if !sendOk then BadGateway
      else if !expires && first.Some? then Answered(Delivered(first.value))
      else GatewayTimeout)
    ensures LeavesOthers(old(registry.View()), registry.View(), id, if sendOk then meanwhile else [])
  {
    ghost var before := registry.View();
    CreateAwaits(before, id);
    hide FirstReply, Received, Dispatched, LeavesOthers, AfterResponse;
    var receiver := registry.CreatePendingRequest(id);
    if !sendOk {
      RemoveLeavesOthers(before, registry.View(), id, []);
      registry.RemovePendingRequest(id);
      return BadGateway;
    }
    for i := 0 to |meanwhile|
      invariant registry.Valid()
      invariant Awaits(registry.View(), id, receiver, meanwhile[..i])
      invariant LeavesOthers(before, registry.View(), id, meanwhile[..i])
    {
      var reply := meanwhile[i];
      ResponseAwaits(registry.View(), id, receiver, meanwhile[..i], reply);
      ResponseLeavesOthers(before, registry.View(), id, meanwhile[..i], reply);
      assert meanwhile[..i] + [reply] == meanwhile[..i + 1];
      registry.HandleResponse(reply.id, reply.message.status, reply.message.headers, Dispatched(reply.message));
    }
    assert meanwhile[..|meanwhile|] == meanwhile;
    if !expires && registry.channels[receiver].Full? {
      outcome := Answered(registry.channels[receiver].response);
    } else {
      RemoveLeavesOthers(before, registry.View(), id, meanwhile);
      registry.RemovePendingRequest(id);
      outcome := GatewayTimeout;
    }
  }
}
