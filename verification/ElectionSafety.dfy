/** One leader per term: exactly when it holds. */
module ElectionSafety {
  import opened Common
  import opened Database
  import opened Lease
  import opened LeaseInvariants
  import opened LeaseRuns

  ghost predicate TermsDistinct(w: World) {
    forall i, j :: 0 <= i < j < |w.elections| ==> w.elections[i].term != w.elections[j].term
  }

  // No run of any length, from any start time, elects twice in one term.
  ghost predicate OneLeaderPerTerm(p: Params) {
    forall clock: nat, run :: Valid(p, Init(p, clock), run) ==> TermsDistinct(Exec(p, Init(p, clock), run))
  }

  // Writes land fast enough for the hard-coded takeover age, and the second read never
  // falls back to term 1.
  predicate Timely(p: Params) {
    WritesInTime(p) && !p.rereadMayFail
  }

  // A candidate's term is still the next one, or its UPDATE is already bound to miss.
  ghost predicate CandidateOk(w: World, id: ServerId)
    requires w.table.Some? && id in w.servers
  {
    w.servers[id].phase.Acquiring? ==>
      || w.servers[id].phase.term == w.table.value.leaderTerm + 1
      || !MayTakeOver(w.table.value, w.servers[id].now)
  }

  ghost predicate TermsCount(w: World)
    requires w.table.Some?
  {
    && w.table.value.leaderTerm == |w.elections|
    && forall k :: 0 <= k < |w.elections| ==> w.elections[k].term == k + 1
  }

  ghost predicate SafeInv(p: Params, w: World) {
    && Inv(p, w) && TermsCount(w)
    && forall id :: id in w.servers ==> CandidateOk(w, id)
  }

  lemma CandidateStep(p: Params, w: World, a: Action, id: ServerId)
    requires Timely(p) && SafeInv(p, w) && Enabled(p, w, a) && id in w.servers
    requires Inv(p, Apply(p, w, a)) && w.table.value.lastHeartbeat <= Apply(p, w, a).table.value.lastHeartbeat
    ensures CandidateOk(Apply(p, w, a), id)
  {
    assert CandidateOk(w, id);
    assert ServerOk(p.skew, w.clock, w.table.value, id, w.servers[id]);
    if !a.Advance? {
      assert ServerOk(p.skew, w.clock, w.table.value, a.id, w.servers[a.id]);
      assert w.table.value.leaderId != Some("");
    }
  }

  lemma SafeStep(p: Params, w: World, a: Action)
    requires Timely(p) && SafeInv(p, w) && Enabled(p, w, a)
    ensures SafeInv(p, Apply(p, w, a))
  {
    StepInv(p, w, a);
    forall id | id in w.servers
      ensures CandidateOk(Apply(p, w, a), id)
    {
      CandidateStep(p, w, a, id);
    }
    if !a.Advance? {
      assert CandidateOk(w, a.id);
    }
  }

  lemma {:induction false} SafeRun(p: Params, w: World, run: seq<Action>)
    requires Timely(p) && SafeInv(p, w) && Valid(p, w, run)
    ensures SafeInv(p, Exec(p, w, run))
    decreases |run|
  {
    if run == [] {
    } else {
      SafeStep(p, w, run[0]);
      SafeRun(p, Apply(p, w, run[0]), run[1..]);
    }
  }

  // With timely writes the k-th successful acquisition of any run carries term k + 1, and
  // the row's term counts them.
  lemma TermsAreConsecutive(p: Params, clock: nat, run: seq<Action>)
    requires p.WellFormed() && Timely(p) && Valid(p, Init(p, clock), run)
    ensures var w := Exec(p, Init(p, clock), run);
            && w.table.Some? && w.table.value.leaderTerm == |w.elections|
            && forall k :: 0 <= k < |w.elections| ==> w.elections[k].term == k + 1
  {
    InitInv(p, clock);
    SafeRun(p, Init(p, clock), run);
  }

  // Two candidates read the same term, the slower clock reading writes first, and the other
  // still finds the row old enough.
  lemma SlowWritesCollide(p: Params, delay: nat, a: ServerId, b: ServerId) returns (run: seq<Action>)
    requires p.WellFormed() && a in p.ids && b in p.ids && a != b
    requires p.delay.Some? ==> delay == p.delay.value
    requires delay + 2 * p.skew > TAKEOVER_AGE_MS
    ensures Valid(p, Init(p, p.skew), run)
    ensures Exec(p, Init(p, p.skew), run).elections == [Election(b, 1), Election(a, 1)]
  {
    var w := Init(p, p.skew);
    assert Valid(p, w, []) && Exec(p, w, []) == w;
    hide Valid, Exec;
    run := Attempt(p, w, [], b, 0, true);
    run := Wait(p, w, run, delay);
    run := Attempt(p, w, run, a, delay + 2 * p.skew, true);
    run := Win(p, w, run, b);
    run := Win(p, w, run, a);
  }

  // A failed second read restarts the count at term 1.
  lemma FailedRereadCollides(p: Params, a: ServerId, b: ServerId) returns (run: seq<Action>)
    requires p.WellFormed() && a in p.ids && b in p.ids && a != b && p.rereadMayFail
    ensures Valid(p, Init(p, 0), run)
    ensures Exec(p, Init(p, 0), run).elections == [Election(a, 1), Election(b, 1)]
  {
    var w := Init(p, 0);
    assert Valid(p, w, []) && Exec(p, w, []) == w;
    hide Valid, Exec;
    run := Attempt(p, w, [], a, 0, true);
    run := Win(p, w, run, a);
    var later := if p.timeout > TAKEOVER_AGE_MS then p.timeout + 1 else TAKEOVER_AGE_MS + 1;
    run := Wait(p, w, run, later);
    run := Attempt(p, w, run, b, later, false);
    run := Win(p, w, run, b);
  }

  // Election safety, exactly: for any cluster of at least two servers, any skew, any
  // configured timeout.
  lemma OneLeaderPerTermExactlyWhenTimely(p: Params, a: ServerId, b: ServerId)
    requires p.WellFormed() && a in p.ids && b in p.ids && a != b
    ensures OneLeaderPerTerm(p) <==> Timely(p)
  {
    if Timely(p) {
      forall clock: nat, run | Valid(p, Init(p, clock), run)
        ensures TermsDistinct(Exec(p, Init(p, clock), run))
      {
        TermsAreConsecutive(p, clock, run);
      }
    } else if p.rereadMayFail {
      var run := FailedRereadCollides(p, a, b);
      var w := Exec(p, Init(p, 0), run);
      assert w.elections[0].term == w.elections[1].term;
    } else {
      var delay := if p.delay.Some? then p.delay.value else TAKEOVER_AGE_MS + 1;
      var run := SlowWritesCollide(p, delay, a, b);
      var w := Exec(p, Init(p, p.skew), run);
      assert w.elections[0].term == w.elections[1].term;
    }
  }
}
