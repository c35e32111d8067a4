/** Where the lease's promise stops, the flags alone, and when they too can be trusted. */
module LeaseLimits {
  import opened Common
  import opened Database
  import opened Lease
  import opened LeaseInvariants
  import opened LeaseRuns
  import opened Paces
  import opened Stability

  // An old leader that has simply not ticked again keeps its flag beside the new one, under
  // any skew, delay bound and timeout. Only the lease tells them apart.
  lemma TwoFlagsAtOnce(p: Params, a: ServerId, b: ServerId) returns (run: seq<Action>)
    requires p.WellFormed() && a in p.ids && b in p.ids && a != b
    ensures Valid(p, Init(p, p.skew), run)
    ensures var w := Exec(p, Init(p, p.skew), run);
            && a in w.servers && b in w.servers && w.table.Some?
            && w.servers[a].isLeader && w.servers[b].isLeader
            && !InLease(p, w, a) && w.table.value.leaderId == Some(b)
  {
    var w := Init(p, p.skew);
    run := Attempt(p, w, [], a, 0, true);
    run := Win(p, w, run, a);
    var later := if p.timeout > TAKEOVER_AGE_MS then p.timeout + 1 else TAKEOVER_AGE_MS + 1;
    run := Wait(p, w, run, later);
    run := Attempt(p, w, run, b, p.skew + later, true);
    run := Win(p, w, run, b);
  }

  // ---------- When one flag is all there is ----------

  predicate Flagless(srv: Server) {
    !srv.isLeader && !(srv.phase.Replying? && srv.phase.changed == Some(true))
  }

  predicate OthersFlagless(w: World, id: ServerId) {
    forall other :: other in w.servers && other != id ==> Flagless(w.servers[other])
  }

  predicate FirstWinner(w: World, id: ServerId) {
    w.elections != [] && w.elections[0].winner == id
  }

  // Until the first election nobody is flagged; after one this server won, nobody else is.
  ghost predicate OneFlag(c: Pace, w: World) {
    && (w.elections == [] ==> w.table.Some? && w.table.value.leaderId.None? && OthersFlagless(w, ""))
    && (FirstWinner(w, c.id) ==> Names(w, c.id) && OthersFlagless(w, c.id))
  }

  // While the row is unowned or this server's to keep, nobody else's step raises a flag.
  lemma FlaglessStep(p: Params, w: World, a: Action, other: ServerId)
    requires Enabled(p, w, a) && other in w.servers && Flagless(w.servers[other])
    requires w.table.Some? && w.table.value.leaderId != Some(other)
    requires Apply(p, w, a).elections == w.elections
    ensures other in Apply(p, w, a).servers && Flagless(Apply(p, w, a).servers[other])
  {
  }

  lemma ElectsOnce(p: Params, w: World, a: Action)
    requires Enabled(p, w, a) && Apply(p, w, a).elections != w.elections
    ensures a.Write? && Acquires(w, a) && Apply(p, w, a).elections[..|w.elections|] == w.elections
    ensures |Apply(p, w, a).elections| == |w.elections| + 1
    ensures Apply(p, w, a).elections[|w.elections|].winner == a.id && Names(Apply(p, w, a), a.id)
    ensures Apply(p, w, a).servers.Keys == w.servers.Keys
    ensures forall other :: other in w.servers && other != a.id ==> Apply(p, w, a).servers[other] == w.servers[other]
  {
  }

  lemma OneFlagStep(p: Params, c: Pace, w: World, a: Action)
    requires FastEnough(p, c) && Ready(p, c, w) && OneFlag(c, w) && "" !in w.servers
    requires Enabled(p, w, a) && Keeps(c, w, a)
    ensures OneFlag(c, Apply(p, w, a))
  {
    var w' := Apply(p, w, a);
    assert w'.servers.Keys == w.servers.Keys;
    if Names(w, c.id) {
      SteadyStep(p, c, w, a);
      SteadyNames(p, c, w');
    }
    hide Apply, Enabled, Keeps, FastEnough, Ready, Flagless;
    if w'.elections != w.elections {
      ElectsOnce(p, w, a);
    } else if w.elections == [] {
      NobodyTakes(p, w, a);
      forall other | other in w'.servers
        ensures Flagless(w'.servers[other])
      {
        FlaglessStep(p, w, a, other);
      }
    } else if FirstWinner(w, c.id) {
      forall other | other in w'.servers && other != c.id
        ensures Flagless(w'.servers[other])
      {
        FlaglessStep(p, w, a, other);
      }
    }
  }

  // An unowned row stays unowned until somebody is elected.
  lemma NobodyTakes(p: Params, w: World, a: Action)
    requires Enabled(p, w, a) && Apply(p, w, a).elections == w.elections
    requires w.table.Some? && w.table.value.leaderId.None?
    ensures Apply(p, w, a).table == w.table
  {
  }

  lemma {:induction false} OneFlagRun(p: Params, c: Pace, w: World, run: seq<Action>)
    requires FastEnough(p, c) && Ready(p, c, w) && OneFlag(c, w) && "" !in w.servers && Punctual(p, c, w, run)
    ensures OneFlag(c, Exec(p, w, run))
    decreases |run|
  {
    if run == [] {
    } else {
      OneFlagStep(p, c, w, run[0]);
      ReadyStep(p, c, w, run[0]);
      assert Apply(p, w, run[0]).servers.Keys == w.servers.Keys;
      OneFlagRun(p, c, Apply(p, w, run[0]), run[1..]);
    }
  }

  // If the first server to be elected is punctual and fast enough, no other flag is ever up.
  lemma PunctualWinnersFlagIsTheOnlyOne(p: Params, c: Pace, clock: nat, run: seq<Action>, other: ServerId)
    requires p.WellFormed() && c.id in p.ids && FastEnough(p, c) && Punctual(p, c, Init(p, clock), run)
    requires FirstWinner(Exec(p, Init(p, clock), run), c.id)
    requires other in Exec(p, Init(p, clock), run).servers && other != c.id
    ensures !Exec(p, Init(p, clock), run).servers[other].isLeader
  {
    InitReady(p, c, clock);
    OneFlagRun(p, c, Init(p, clock), run);
  }
}
