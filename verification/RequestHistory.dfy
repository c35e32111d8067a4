/** Requests and replies read off the run itself: which replies count, what each request ends
    with, and that a proxied request is such a run. */
module RequestHistory {
  import opened Common
  import opened PendingRequests

  // ---------- What a run says ----------

  // The ids created, in order; request r is the r-th.
  function CreatedIds(run: seq<Action>): seq<RequestId> {
    if run == [] then []
    else
      var last := run[|run| - 1];
      CreatedIds(run[..|run| - 1]) + if last.Create? then [last.id] else []
  }

  // A registered agent's message with this id.
  predicate Answers(a: Action, id: RequestId) {
    a.Arrive? && a.registered && a.reply.id == id
  }

  // The first of them since request r was created.
  function FirstArrival(run: seq<Action>, r: nat): Option<Message> {
    if run == [] then None
    else
      var before, last := run[..|run| - 1], run[|run| - 1];
      if r >= |CreatedIds(before)| then None
      else if FirstArrival(before, r).Some? then FirstArrival(before, r)
      else if Answers(last, CreatedIds(before)[r]) then Some(last.reply.message)
      else None
  }

  predicate IsOwn(a: Action, r: nat) {
    (a.Send? || a.Receive? || a.Timeout? || a.Remove? || a.Cancel?) && a.r == r
  }

  // The last thing request r did, and whether its message was refused.
  function LastOwn(run: seq<Action>, r: nat): (last: Option<Action>)
    ensures last.Some? ==> IsOwn(last.value, r)
  {
    if run == [] then None
    else if IsOwn(run[|run| - 1], r) then Some(run[|run| - 1])
    else LastOwn(run[..|run| - 1], r)
  }

  predicate Refused(run: seq<Action>, r: nat) {
    run != [] && (run[|run| - 1] == Send(r, false) || Refused(run[..|run| - 1], r))
  }

  // Where that leaves the request.
  function Outcome(last: Option<Action>, refused: bool, first: Option<Message>): Phase {
    match last
    case None => Created
    case Some(Send(_, ok)) => if ok then Waiting else SendFailed
    case Some(Receive(_)) => if first.Some? then Answered(Delivered(first.value)) else Expired
    case Some(Remove(_)) => if refused then BadGateway else GatewayTimeout
    case Some(Cancel(_)) => Cancelled
    case _ => Expired
  }

  // ---------- Runs from their end ----------

  lemma {:induction false} ExecSnoc(w: World, run: seq<Action>, a: Action)
    ensures FreshRun(w, run + [a]) <==>
            FreshRun(w, run) && Enabled(Exec(w, run), a) && Fresh(Exec(w, run), a)
    ensures FreshRun(w, run + [a]) ==> Exec(w, run + [a]) == Apply(Exec(w, run), a)
    decreases |run|
  {
    if run == [] {
      assert (run + [a])[1..] == [];
    } else {
      assert (run + [a])[1..] == run[1..] + [a];
      if Enabled(w, run[0]) {
        ExecSnoc(Apply(w, run[0]), run[1..], a);
      }
    }
  }

  ghost predicate RequestTold(w: World, r: nat, run: seq<Action>)
    requires r < |w.requests|
  {
    var q := w.requests[r];
    && FirstFor(w, q) == FirstArrival(run, r)
    && q.phase == Outcome(LastOwn(run, r), Refused(run, r), FirstArrival(run, r))
    && (Refused(run, r) ==> q.phase.SendFailed? || q.phase.BadGateway? || q.phase.Cancelled?)
    && (q.phase.SendFailed? ==> Refused(run, r))
    && (LastOwn(run, r) == Some(Receive(r)) ==> FirstArrival(run, r).Some?)
  }

  ghost predicate Told(w: World, run: seq<Action>) {
    && |w.requests| == |CreatedIds(run)|
    && (forall r :: 0 <= r < |w.requests| ==> w.requests[r].id == CreatedIds(run)[r] && RequestTold(w, r, run))
    && (forall r: nat :: |w.requests| <= r ==> LastOwn(run, r).None? && !Refused(run, r))
  }

  lemma SnocParts(run: seq<Action>, a: Action)
    ensures (run + [a])[..|run|] == run && (run + [a])[|run|] == a
  {
  }

  lemma FirstArrivalSnoc(run: seq<Action>, a: Action, r: nat)
    ensures FirstArrival(run + [a], r) ==
            if r >= |CreatedIds(run)| then None
            else if FirstArrival(run, r).Some? then FirstArrival(run, r)
            else if Answers(a, CreatedIds(run)[r]) then Some(a.reply.message) else None
    ensures CreatedIds(run + [a]) == CreatedIds(run) + if a.Create? then [a.id] else []
    ensures LastOwn(run + [a], r) == if IsOwn(a, r) then Some(a) else LastOwn(run, r)
    ensures Refused(run + [a], r) <==> a == Send(r, false) || Refused(run, r)
  {
    SnocParts(run, a);
  }

  lemma ToldNew(w: World, run: seq<Action>, id: RequestId)
    requires Inv(w) && Told(w, run) && Enabled(w, Create(id))
    ensures RequestTold(Apply(w, Create(id)), |w.requests|, run + [Create(id)])
  {
    FirstArrivalSnoc(run, Create(id), |w.requests|);
    hide FirstArrival, CreatedIds, LastOwn, Refused;
  }

  lemma FirstForStep(w: World, a: Action, r: nat)
    requires Inv(w) && Enabled(w, a) && r < |w.requests|
    ensures var w', q := Apply(w, a), w.requests[r];
            && r < |w'.requests| && w'.requests[r].id == q.id && w'.requests[r].since == q.since
            && FirstFor(w', w'.requests[r]) ==
               if FirstFor(w, q).Some? then FirstFor(w, q)
               else if Answers(a, q.id) then Some(a.reply.message) else None
  {
    assert RequestOk(w, r);
    if a.Arrive? && a.registered {
      FirstReplyOfOneMore(w.replies, a.reply, w.requests[r].since, w.requests[r].id);
    }
    hide FirstReply, Table.Valid, RequestOk, AfterResponse, AfterCreate, AfterRemove;
  }

  // What an own step makes of a phase, given what has arrived.
  lemma OwnStep(w: World, a: Action, r: nat)
    requires Inv(w) && Enabled(w, a) && IsOwn(a, r) && r < |w.requests|
    ensures var phase, phase' := w.requests[r].phase, Apply(w, a).requests[r].phase;
            match a
            case Send(_, ok) => phase.Created? && phase' == if ok then Waiting else SendFailed
            case Receive(_) =>
              phase.Waiting? && FirstFor(w, w.requests[r]).Some?
              && phase' == Answered(Delivered(FirstFor(w, w.requests[r]).value))
            case Timeout(_) => phase.Waiting? && phase' == Expired
            case Remove(_) =>
              || (phase.SendFailed? && phase' == BadGateway)
              || (phase.Expired? && phase' == GatewayTimeout)
            case Cancel(_) => phase' == Cancelled
            case _ => true
  {
    assert RequestOk(w, r);
    hide FirstReply, Table.Valid;
  }

  lemma OthersPhase(w: World, a: Action, r: nat)
    requires Enabled(w, a) && !IsOwn(a, r) && r < |w.requests|
    ensures r < |Apply(w, a).requests| && Apply(w, a).requests[r].phase == w.requests[r].phase
  {
  }

  lemma ToldStep(w: World, run: seq<Action>, a: Action, r: nat)
    requires Inv(w) && Told(w, run) && Enabled(w, a) && r < |w.requests|
    ensures r < |Apply(w, a).requests| && RequestTold(Apply(w, a), r, run + [a])
  {
    FirstForStep(w, a, r);
    FirstArrivalSnoc(run, a, r);
    assert |w.requests| == |CreatedIds(run)|;
    assert w.requests[r].id == CreatedIds(run)[r] && RequestTold(w, r, run);
    hide FirstArrival, CreatedIds, LastOwn, Refused, FirstFor, Inv, Told;
    if IsOwn(a, r) {
      OwnStep(w, a, r);
    } else {
      OthersPhase(w, a, r);
    }
    hide Apply, Enabled;
  }

  lemma ToldAll(w: World, run: seq<Action>, a: Action)
    requires Inv(w) && Told(w, run) && Enabled(w, a)
    ensures Told(Apply(w, a), run + [a])
  {
    var w', run' := Apply(w, a), run + [a];
    FirstArrivalSnoc(run, a, 0);
    SameIds(w, a);
    forall r | 0 <= r < |w'.requests|
      ensures w'.requests[r].id == CreatedIds(run')[r] && RequestTold(w', r, run')
    {
      if r < |w.requests| {
        ToldStep(w, run, a, r);
      } else {
        ToldNew(w, run, a.id);
      }
    }
    forall r: nat | |w'.requests| <= r
      ensures LastOwn(run', r).None? && !Refused(run', r)
    {
      FirstArrivalSnoc(run, a, r);
    }
  }

  lemma SameIds(w: World, a: Action)
    requires Enabled(w, a)
    ensures var w' := Apply(w, a);
            && |w'.requests| == |w.requests| + (if a.Create? then 1 else 0)
            && (forall r :: 0 <= r < |w.requests| ==> w'.requests[r].id == w.requests[r].id)
            && (a.Create? ==> w'.requests[|w.requests|].id == a.id)
            && forall r: nat :: IsOwn(a, r) ==> r < |w.requests|
  {
  }

  lemma {:induction false} ToldRun(run: seq<Action>)
    requires FreshRun(INITIAL, run)
    ensures Told(Exec(INITIAL, run), run) && Inv(Exec(INITIAL, run))
    decreases |run|
  {
    RunInv(INITIAL, run);
    if run == [] {
    } else {
      var before, a := run[..|run| - 1], run[|run| - 1];
      assert run == before + [a];
      ExecSnoc(INITIAL, before, a);
      hide FreshRun, Exec, Apply, Told, Inv, Enabled;
      ToldRun(before);
      ToldAll(Exec(INITIAL, before), before, a);
    }
  }

  // ---------- What follows for every run ----------

  // A message from a socket that never registered an agent changes nothing.
  lemma UnregisteredIsIgnored(w: World, reply: Reply)
    requires w.table.Valid()
    ensures Apply(w, Arrive(false, reply)) == w
  {
  }

  // While a request waits, its channel is full exactly when a registered agent's message with
  // its id has arrived since it was created, and then it holds the first such message.
  lemma WaitingHoldsTheFirstArrival(run: seq<Action>, r: nat)
    requires FreshRun(INITIAL, run) && r < |CreatedIds(run)|
    ensures var w := Exec(INITIAL, run);
            && |w.requests| == |CreatedIds(run)| == |w.table.channels| && w.requests[r].id == CreatedIds(run)[r]
            && (w.requests[r].phase.Created? || w.requests[r].phase.Waiting? ==>
                  w.table.channels[r] == match FirstArrival(run, r)
                                         case None => Empty
                                         case Some(m) => Full(Delivered(m)))
  {
    ToldRun(run);
    assert RequestOk(Exec(INITIAL, run), r) && RequestTold(Exec(INITIAL, run), r, run);
  }

  // Every request stands where its own last step left it, an answered one with the first
  // registered arrival, a removed one as refused or timed out.
  lemma PhaseIsItsHistory(run: seq<Action>, r: nat)
    requires FreshRun(INITIAL, run) && r < |CreatedIds(run)|
    ensures var w := Exec(INITIAL, run);
            && r < |w.requests|
            && w.requests[r].phase == Outcome(LastOwn(run, r), Refused(run, r), FirstArrival(run, r))
            && (LastOwn(run, r) == Some(Receive(r)) ==> FirstArrival(run, r).Some?)
  {
    ToldRun(run);
    var w := Exec(INITIAL, run);
    assert RequestTold(w, r, run) && RequestOk(w, r);
  }

  // No registered message has answered it and it has not removed itself.
  predicate Unanswered(run: seq<Action>, r: nat) {
    FirstArrival(run, r).None? && LastOwn(run, r) != Some(Remove(r))
  }

  lemma UnansweredIsOutstanding(run: seq<Action>, r: nat)
    requires FreshRun(INITIAL, run) && r < |CreatedIds(run)|
    ensures var w := Exec(INITIAL, run);
            && |w.requests| == |CreatedIds(run)| && w.requests[r].id == CreatedIds(run)[r]
            && (Outstanding(w, w.requests[r]) <==> Unanswered(run, r))
  {
    WaitingHoldsTheFirstArrival(run, r);
    PhaseIsItsHistory(run, r);
    ToldRun(run);
    assert RequestTold(Exec(INITIAL, run), r, run);
    hide FreshRun, Exec, FirstArrival, LastOwn, Refused, FirstFor, CreatedIds, Told, Inv;
  }

  lemma CreatedAreRequests(run: seq<Action>)
    requires FreshRun(INITIAL, run)
    ensures |Exec(INITIAL, run).requests| == |CreatedIds(run)|
  {
    ToldRun(run);
  }

  // The table holds exactly the ids of such requests.
  lemma TableHoldsTheUnanswered(run: seq<Action>, id: RequestId)
    requires FreshRun(INITIAL, run)
    ensures id in Exec(INITIAL, run).table.pending <==>
            exists r: nat :: r < |CreatedIds(run)| && CreatedIds(run)[r] == id && Unanswered(run, r)
  {
    hide FreshRun, Exec, Unanswered, Outstanding, CreatedIds;
    var w := Exec(INITIAL, run);
    TableHoldsTheOutstanding(run, id);
    CreatedAreRequests(run);
    if id in w.table.pending {
      var r :| 0 <= r < |w.requests| && w.requests[r].id == id && Outstanding(w, w.requests[r]);
      UnansweredIsOutstanding(run, r);
    }
    if exists r: nat :: r < |CreatedIds(run)| && CreatedIds(run)[r] == id && Unanswered(run, r) {
      var r: nat :| r < |CreatedIds(run)| && CreatedIds(run)[r] == id && Unanswered(run, r);
      UnansweredIsOutstanding(run, r);
    }
  }

  // ---------- A proxied request is such a run ----------

  lemma Extend(run: seq<Action>, a: Action) returns (run': seq<Action>)
    requires FreshRun(INITIAL, run) && Enabled(Exec(INITIAL, run), a) && Fresh(Exec(INITIAL, run), a)
    ensures run' == run + [a] && FreshRun(INITIAL, run')
  {
    run' := run + [a];
    ExecSnoc(INITIAL, run, a);
  }

  // Registered replies can arrive at any time.
  lemma {:induction false} Arrivals(run: seq<Action>, replies: seq<Reply>, r: nat) returns (run': seq<Action>)
    requires FreshRun(INITIAL, run) && r < |CreatedIds(run)| && FirstArrival(run, r).None?
    ensures FreshRun(INITIAL, run') && run <= run' && CreatedIds(run') == CreatedIds(run)
    ensures FirstArrival(run', r) == FirstReply(replies, 0, CreatedIds(run)[r])
    ensures LastOwn(run', r) == LastOwn(run, r) && Refused(run', r) == Refused(run, r)
    decreases |replies|
  {
    hide FreshRun, Exec, FirstArrival, LastOwn, Refused, CreatedIds;
    if replies == [] {
      run' := run;
    } else {
      var earlier := Arrivals(run, replies[..|replies| - 1], r);
      TableIsValid(earlier);
      var a := Arrive(true, replies[|replies| - 1]);
      run' := Extend(earlier, a);
      FirstArrivalSnoc(earlier, a, r);
    }
  }

  lemma TableIsValid(run: seq<Action>)
    requires FreshRun(INITIAL, run)
    ensures Exec(INITIAL, run).table.Valid()
  {
    RunInv(INITIAL, run);
  }

  function ProxyOutcome(sendOk: bool, first: Option<Message>, expires: bool): Phase {
    if !sendOk then BadGateway
    else if !expires && first.Some? then Answered(Delivered(first.value))
    else GatewayTimeout
  }

  // It is created and handed to the agent.
  lemma Handed(before: seq<Action>, id: RequestId, sendOk: bool) returns (run: seq<Action>)
    requires FreshRun(INITIAL, before) && id !in CreatedIds(before)
    ensures FreshRun(INITIAL, run) && before <= run && CreatedIds(run) == CreatedIds(before) + [id]
    ensures var r := |CreatedIds(before)|;
            FirstArrival(run, r).None? && LastOwn(run, r) == Some(Send(r, sendOk)) && Refused(run, r) == !sendOk
  {
    var r := |CreatedIds(before)|;
    ToldRun(before);
    assert forall q :: 0 <= q < r ==> CreatedIds(before)[q] in CreatedIds(before);
    var created := Extend(before, Create(id));
    FirstArrivalSnoc(before, Create(id), r);
    PhaseIsItsHistory(created, r);
    TableIsValid(created);
    hide FreshRun, Exec, FirstArrival, LastOwn, Refused, CreatedIds, Told, Inv;
    run := Extend(created, Send(r, sendOk));
    FirstArrivalSnoc(created, Send(r, sendOk), r);
  }

  // What it ends with: the method's own outcome, for every reply that comes meanwhile.
  lemma ProxyHttpIsARun(before: seq<Action>, id: RequestId, sendOk: bool, meanwhile: seq<Reply>, expires: bool)
    returns (run: seq<Action>)
    requires FreshRun(INITIAL, before) && id !in CreatedIds(before)
    ensures FreshRun(INITIAL, run) && before <= run && CreatedIds(run) == CreatedIds(before) + [id]
    ensures var w, r := Exec(INITIAL, run), |CreatedIds(before)|;
            && r < |w.requests| && w.requests[r].id == id
            && w.requests[r].phase == ProxyOutcome(sendOk, FirstReply(meanwhile, 0, id), expires)
  {
    hide FreshRun, Exec, FirstArrival, LastOwn, Refused, CreatedIds, Enabled, FirstReply;
    var r := |CreatedIds(before)|;
    run := Handed(before, id, sendOk);
    if !sendOk {
      run := Own(run, r, Remove(r));
    } else {
      run := Arrivals(run, meanwhile, r);
      if !expires && FirstReply(meanwhile, 0, id).Some? {
        run := Own(run, r, Receive(r));
      } else {
        run := Own(run, r, Timeout(r));
        run := Own(run, r, Remove(r));
      }
    }
    PhaseIsItsHistory(run, r);
    WaitingHoldsTheFirstArrival(run, r);
  }

  // A step of its own that its history allows.
  lemma Own(run: seq<Action>, r: nat, a: Action) returns (run': seq<Action>)
    requires FreshRun(INITIAL, run) && r < |CreatedIds(run)|
    requires var last := LastOwn(run, r);
             || (a == Remove(r) && (last == Some(Send(r, false)) || last == Some(Timeout(r))))
             || (a == Timeout(r) && last == Some(Send(r, true)))
             || (a == Receive(r) && last == Some(Send(r, true)) && FirstArrival(run, r).Some?)
    ensures FreshRun(INITIAL, run') && run <= run' && CreatedIds(run') == CreatedIds(run)
    ensures FirstArrival(run', r) == FirstArrival(run, r) && LastOwn(run', r) == Some(a)
    ensures Refused(run', r) == Refused(run, r)
  {
    PhaseIsItsHistory(run, r);
    WaitingHoldsTheFirstArrival(run, r);
    TableIsValid(run);
    ChannelIsOwn(run, r);
    hide FreshRun, Exec, FirstArrival, LastOwn, Refused, CreatedIds, Told, Inv;
    run' := Extend(run, a);
    FirstArrivalSnoc(run, a, r);
  }

  lemma ChannelIsOwn(run: seq<Action>, r: nat)
    requires FreshRun(INITIAL, run) && r < |Exec(INITIAL, run).requests|
    ensures Exec(INITIAL, run).requests[r].channel == r
  {
    RunInv(INITIAL, run);
    assert RequestOk(Exec(INITIAL, run), r);
  }
}
