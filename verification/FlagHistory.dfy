/** What a server's leader flag says: the verdict of its last decisive step, read off the run
    and the tables that step met. */
module FlagHistory {
  import opened Common
  import opened Database
  import opened Lease

  // The lease as a server saw it is free to take: no row, nobody in it, or a heartbeat older
  // than the configured timeout.
  predicate Vacant(seen: Option<ClusterRow>, now: int, timeout: int) {
    || seen.None? || seen.value.leaderId.None? || seen.value.leaderId == Some("")
    || now - seen.value.lastHeartbeat > timeout
  }

  predicate IsNamed(table: Option<ClusterRow>, id: ServerId) {
    table.Some? && table.value.leaderId == Some(id)
  }

  // The table an acquiring UPDATE finds lets it through.
  predicate Yields(table: Option<ClusterRow>, now: int) {
    table.Some? && (table.value.leaderId.None? || now - table.value.lastHeartbeat > 15000)
  }

  // What one server has met so far: the clock it captured, the table of its last read,
  // whether its last UPDATE ran and matched, and the last verdict on its flag.
  datatype Notes = Notes(now: int, seen: Option<ClusterRow>, hit: bool, verdict: Option<bool>)

  // One step of its own, with the table as it stood. Observing another's live lease is a
  // verdict against it, and so is a renewal that fails, misses or is not heard of; an
  // acquisition is a verdict only when it is won and heard of.
  function Noted(timeout: int, id: ServerId, n: Notes, table: Option<ClusterRow>, a: Action): Notes {
    var vacant := Vacant(n.seen, n.now, timeout);
    match a
    case Capture(_, now) => n.(now := now)
    case Read(_, ok) => if ok then n.(seen := table) else n
    case Write(_, ok) => n.(hit := ok && if vacant then Yields(table, n.now) else IsNamed(table, id))
    case Decide(_) => if vacant || IsNamed(n.seen, id) then n else n.(verdict := Some(false))
    case Reply(_, ok) =>
      if !vacant then n.(verdict := Some(ok && n.hit))
      else if ok && n.hit then n.(verdict := Some(true))
      else n
    case _ => n
  }

  function NotesOf(p: Params, w: World, run: seq<Action>, id: ServerId, n: Notes): Notes
    requires Valid(p, w, run)
    decreases |run|
  {
    if run == [] then n
    else
      var a := run[0];
      var n' := if a.Advance? || a.id != id then n else Noted(p.timeout, id, n, w.table, a);
      NotesOf(p, Apply(p, w, a), run[1..], id, n')
  }

  ghost predicate NotesOk(timeout: int, id: ServerId, srv: Server, n: Notes) {
    && srv.now == n.now && (srv.isLeader <==> n.verdict == Some(true))
    && match srv.phase
       case Deciding(snapshot) => snapshot == SelectState(n.seen)
       case Rereading => Vacant(n.seen, n.now, timeout)
       case Acquiring(_) => Vacant(n.seen, n.now, timeout)
       case Renewing => !Vacant(n.seen, n.now, timeout) && IsNamed(n.seen, id)
       case Replying(acquire, changed) =>
         (acquire <==> Vacant(n.seen, n.now, timeout)) && (n.hit <==> changed == Some(true))
       case _ => true
  }

  lemma NotesStep(p: Params, w: World, a: Action, id: ServerId, n: Notes)
    requires Enabled(p, w, a) && !a.Advance? && a.id == id && NotesOk(p.timeout, id, w.servers[id], n)
    ensures id in Apply(p, w, a).servers
    ensures NotesOk(p.timeout, id, Apply(p, w, a).servers[id], Noted(p.timeout, id, n, w.table, a))
  {
  }

  lemma {:induction false} NotesRun(p: Params, w: World, run: seq<Action>, id: ServerId, n: Notes)
    requires Valid(p, w, run) && id in w.servers && NotesOk(p.timeout, id, w.servers[id], n)
    ensures id in Exec(p, w, run).servers
    ensures NotesOk(p.timeout, id, Exec(p, w, run).servers[id], NotesOf(p, w, run, id, n))
    decreases |run|
  {
    if run == [] {
    } else {
      var a := run[0];
      if a.Advance? || a.id != id {
        NotesRun(p, Apply(p, w, a), run[1..], id, n);
      } else {
        NotesStep(p, w, a, id, n);
        hide Noted, NotesOk;
        NotesRun(p, Apply(p, w, a), run[1..], id, Noted(p.timeout, id, n, w.table, a));
      }
    }
  }

  // In every run from start-up the flag is up exactly when the last verdict was for it.
  lemma FlagIsTheLastVerdict(p: Params, clock: nat, run: seq<Action>, id: ServerId)
    requires Valid(p, Init(p, clock), run) && id in p.ids
    ensures id in Exec(p, Init(p, clock), run).servers
    ensures Exec(p, Init(p, clock), run).servers[id].isLeader <==>
            NotesOf(p, Init(p, clock), run, id, Notes(0, None, false, None)).verdict == Some(true)
  {
    NotesRun(p, Init(p, clock), run, id, Notes(0, None, false, None));
  }
}
