/** The tracker's entries and counters and the relay's connections, read off the run alone. */
module RelayHistory {
  import opened Common
  import opened RelayAccounting

  // When the entry that still stands under this id was stored: the last store that no sweep
  // since has found old enough.
  function EntryTime(run: seq<Action>, id: SessionId): Option<int> {
    if run == [] then None
    else
      var last, before := run[|run| - 1], EntryTime(run[..|run| - 1], id);
      if last.StoreAttempt? && last.id == id then Some(last.now)
      else if last.SweepStats? && before.Some? && before.value <= last.cutoff then None
      else before
  }

  // The same of the relay connection open under this id, which a close ends too.
  function RelayTime(run: seq<Action>, id: SessionId): Option<int> {
    if run == [] then None
    else
      var last, before := run[|run| - 1], RelayTime(run[..|run| - 1], id);
      if last.CreateRelay? && last.id == id then Some(last.now)
      else if last.CloseRelay? && last.id == id then None
      else if last.SweepRelays? && before.Some? && before.value <= last.cutoff then None
      else before
  }

  // How often a counter was due: attempts counted, successes of standing entries over a direct
  // connection, and those over a relay together with failures that fell back to one.
  function Attempts(run: seq<Action>): nat {
    if run == [] then 0
    else Attempts(run[..|run| - 1]) + if run[|run| - 1].CountAttempt? then 1 else 0
  }

  function DirectMarks(run: seq<Action>): nat {
    if run == [] then 0
    else
      var last, before := run[|run| - 1], run[..|run| - 1];
      DirectMarks(before) + if last.MarkSuccess? && last.direct && EntryTime(before, last.id).Some? then 1 else 0
  }

  function RelayMarks(run: seq<Action>): nat {
    if run == [] then 0
    else
      var last, before := run[|run| - 1], run[..|run| - 1];
      var overRelay := (last.MarkSuccess? && !last.direct) || (last.MarkFailed? && last.relay);
      RelayMarks(before) + if overRelay && EntryTime(before, last.id).Some? then 1 else 0
  }

  function BytesTaken(run: seq<Action>): nat {
    if run == [] then 0
    else
      var last, before := run[|run| - 1], run[..|run| - 1];
      BytesTaken(before) + if last.Send? && RelayTime(before, last.id).Some? then last.bytes else 0
  }

  predicate EntryOk(st: State, id: SessionId, time: Option<int>) {
    (id in st.stats <==> time.Some?) && (time.Some? ==> st.stats[id].createdAt == time.value)
  }

  predicate RelayOk(st: State, id: SessionId, time: Option<int>) {
    (id in st.connections <==> time.Some?) && (time.Some? ==> st.connections[id].createdAt == time.value)
  }

  lemma EntryStep(st: State, a: Action, id: SessionId, time: Option<int>)
    requires Enabled(st, a) && EntryOk(st, id, time)
    ensures EntryOk(Apply(st, a), id,
      if a.StoreAttempt? && a.id == id then Some(a.now)
      else if a.SweepStats? && time.Some? && time.value <= a.cutoff then None
      else time)
  {
    hide TotalBytes;
  }

  lemma RelayStep(st: State, a: Action, id: SessionId, time: Option<int>)
    requires Enabled(st, a) && RelayOk(st, id, time)
    ensures RelayOk(Apply(st, a), id,
      if a.CreateRelay? && a.id == id then Some(a.now)
      else if a.CloseRelay? && a.id == id then None
      else if a.SweepRelays? && time.Some? && time.value <= a.cutoff then None
      else time)
  {
    hide TotalBytes;
  }

  // In every run the entries and connections that stand are those last stored or opened and
  // since neither closed nor swept at their age.
  lemma {:induction false} StandingIsHistory(run: seq<Action>, id: SessionId)
    requires Valid(run)
    ensures EntryOk(Exec(run), id, EntryTime(run, id)) && RelayOk(Exec(run), id, RelayTime(run, id))
    decreases |run|
  {
    if run == [] {
    } else {
      StandingIsHistory(run[..|run| - 1], id);
      var last, before := run[|run| - 1], run[..|run| - 1];
      EntryStep(Exec(before), last, id, EntryTime(before, id));
      RelayStep(Exec(before), last, id, RelayTime(before, id));
      hide Apply, EntryOk, RelayOk;
    }
  }

  // And each counter is exactly the number of times it was due, as are the bytes taken.
  lemma {:induction false} CountersAreHistory(run: seq<Action>)
    requires Valid(run)
    ensures Exec(run).totalAttempts == Attempts(run)
    ensures Exec(run).directSuccesses == DirectMarks(run) && Exec(run).relayUsed == RelayMarks(run)
    ensures Exec(run).accepted == BytesTaken(run)
    decreases |run|
  {
    hide TotalBytes;
    if run == [] {
    } else {
      var last, before := run[|run| - 1], run[..|run| - 1];
      CountersAreHistory(before);
      if last.MarkSuccess? || last.MarkFailed? || last.Send? {
        StandingIsHistory(before, last.id);
      }
      hide EntryTime, RelayTime;
    }
  }
}
