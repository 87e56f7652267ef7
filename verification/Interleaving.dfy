/**
 Any number of database sessions running create, reschedule and status
 changes, step by step and in any order. A session reads its row, runs the
 advisory slot query, flushes one row version, and commits or rolls back.
 Reads see committed rows only; a flush waits for other open sessions and is
 checked against committed rows. An UPDATE carries only the columns whose new
 value differs from the loaded one, and none is sent if there is no such column.
 */
module Interleaving {
  import opened Calendar

  /** The change one service call asks for. */
  datatype Job =
    | Book(id: Id, row: Appt)
    | Move(id: Id, starts: int, ends: int)
    | Mark(id: Id, status: Status, noShow: bool)

  /** The statement a flush sends; None leaves a column out. */
  datatype Change =
    | Nothing
    | Insert(row: Appt)
    | SetTimes(starts: Option<int>, ends: Option<int>)
    | SetStatus(status: Status, noShow: bool)

  /**
   How far a session has come: the row it loaded, or the uncommitted row version
   its flush wrote. An unwritten session had nothing to flush.
   */
  datatype Phase =
    | Opened
    | Loaded(seen: Appt)
    | EmployeeFree(seen: Appt)
    | Checked(seen: Appt)
    | Flushed(change: Change, row: Appt)
    | Unwritten

  datatype Session = Session(job: Job, phase: Phase)

  datatype World = World(committed: Appts, open: map<nat, Session>)

  datatype Step = Begin(sid: nat, job: Job) | Advance(sid: nat) | Rollback(sid: nat)

  /** What a step reports to the caller of its session. */
  datatype Event = Quiet | Refused | TakenAtCheck | TakenAtFlush | Committed(job: Job, change: Change)

  /** Services have positive durations, and a new row is PENDING or CONFIRMED. */
  predicate WellFormed(job: Job) {
    match job
    case Book(_, row) => row.starts < row.ends && (row.status == Pending || row.status == Confirmed)
    case Move(_, starts, ends) => starts < ends
    case Mark(_, _, _) => true
  }

  predicate Missing(appts: Appts, job: Job) {
    !job.Book? && job.id !in appts
  }

  /** The row version the job asks for, on the row it is given. */
  function Asked(seen: Appt, job: Job): Appt {
    match job
    case Book(_, row) => row
    case Move(_, starts, ends) => seen.(starts := starts, ends := ends)
    case Mark(_, status, noShow) => seen.(status := status, noShow := seen.noShow || noShow)
  }

  /** The row a session loads; a new one is its own. */
  function Current(appts: Appts, job: Job): Appt
    requires !Missing(appts, job)
  {
    match job
    case Book(_, row) => row
    case _ => appts[job.id]
  }

  function Target(appts: Appts, job: Job): Appt
    requires !Missing(appts, job)
  {
    Asked(Current(appts, job), job)
  }

  /** The columns that differ from the loaded row. */
  function Statement(job: Job, seen: Appt): Change {
    match job
    case Book(_, row) => Insert(row)
    case Move(_, starts, ends) =>
      if starts == seen.starts && ends == seen.ends then Nothing
      else SetTimes(if starts == seen.starts then None else Some(starts), if ends == seen.ends then None
          else Some(ends))
    case Mark(_, status, noShow) => SetStatus(status, noShow)
  }

  function Or(change: Option<int>, current: int): int {
    if change.Some? then change.value else current
  }

  /** The row version a statement makes of the current row. */
  function Written(current: Appt, change: Change): Appt {
    match change
    case Nothing => current
    case Insert(row) => row
    case SetTimes(starts, ends) => current.(starts := Or(starts, current.starts), ends := Or(ends, current.ends))
    case SetStatus(status, noShow) => current.(status := status, noShow := current.noShow || noShow)
  }

  /** The status test at the start of a service call. */
  predicate StatusGuard(appts: Appts, job: Job)
    requires !Missing(appts, job)
  {
    match job
    case Book(_, _) => true
    case Move(id, _, _) => appts[id].status != Cancelled && appts[id].status != Completed
    case Mark(id, status, _) => Allowed(appts[id].status, status)
  }

  predicate Holds(open: map<nat, Session>, sid: nat, id: Id) {
    exists other :: other in open && other != sid && open[other].phase.Flushed? && open[other].job.id == id
  }

  /** A flush waits for an open session that holds the same row or a version, old or new, of a clashing row. */
  predicate Waits(w: World, sid: nat, id: Id, row: Appt) {
    exists other :: other in w.open && other != sid && w.open[other].phase.Flushed?
      && (|| w.open[other].job.id == id
          || Clash(row, w.open[other].phase.row)
          || (w.open[other].job.id in w.committed && Clash(row, w.committed[w.open[other].job.id])))
  }

  /** A flush fails on a clashing committed row that no open session is rewriting. */
  predicate Rejects(w: World, sid: nat, id: Id, row: Appt) {
    exists j :: j in w.committed && j != id && !Holds(w.open, sid, j) && Clash(row, w.committed[j])
  }

  function Close(w: World, sid: nat): World {
    w.(open := w.open - {sid})
  }

  function GoTo(w: World, sid: nat, phase: Phase): World
    requires sid in w.open
  {
    w.(open := w.open[sid := w.open[sid].(phase := phase)])
  }

  /** Does the session of this job run the slot query before it flushes? */
  predicate Queries(job: Job) {
    !job.Mark?
  }

  function Flush(w: World, sid: nat, seen: Appt): (World, Event)
    requires sid in w.open && !Missing(w.committed, w.open[sid].job)
  {
    var job := w.open[sid].job;
    var change := Statement(job, seen);
    var row := Written(Current(w.committed, job), change);
    if change.Nothing? then (GoTo(w, sid, Unwritten), Quiet)
    else if Waits(w, sid, job.id, row) then (w, Quiet)
    else if job.Book? && job.id in w.committed then (Close(w, sid), TakenAtFlush)
    else if Active(row) && row.starts > row.ends then (Close(w, sid), Refused)
    else if Rejects(w, sid, job.id, row) then (Close(w, sid), if Queries(job) then TakenAtFlush else Refused)
    else (GoTo(w, sid, Flushed(change, row)), Quiet)
  }

  /** The slot query, one statement for the employee and one for the room, each on the rows committed at its time. */
  function Query(w: World, sid: nat): (World, Event)
    requires sid in w.open && (w.open[sid].phase.Loaded? || w.open[sid].phase.EmployeeFree?)
  {
    var job, phase := w.open[sid].job, w.open[sid].phase;
    var row := Asked(phase.seen, job);
    var taken :=
      if phase.Loaded? then EmployeeTaken(w.committed, row.tenant, row.employee, row.starts, row.ends, Some(job.id))
      else RoomTaken(w.committed, row.tenant, row.room, row.starts, row.ends, Some(job.id));
    if taken then (Close(w, sid), TakenAtCheck)
    else (GoTo(w, sid, if phase.Loaded? then EmployeeFree(phase.seen) else Checked(phase.seen)), Quiet)
  }

  /** The next action of one session. */
  function Advanced(w: World, sid: nat): (World, Event)
    requires sid in w.open
  {
    var job, phase := w.open[sid].job, w.open[sid].phase;
    if phase.Flushed? then
      (Close(w, sid).(committed := w.committed[job.id := phase.row]), Committed(job, phase.change))
    else if phase.Unwritten? then (Close(w, sid), Committed(job, Nothing))
    else if Missing(w.committed, job) then (Close(w, sid), Refused)
    else if phase.Opened? then
      if StatusGuard(w.committed, job) then (GoTo(w, sid, Loaded(Current(w.committed, job))), Quiet)
      else (Close(w, sid), Refused)
    else if phase.Checked? || !Queries(job) then Flush(w, sid, phase.seen)
    else Query(w, sid)
  }

  /** One step of the system; a step that does not apply changes nothing. */
  function Next(w: World, step: Step): (World, Event) {
    match step
    case Begin(sid, job) =>
      if sid !in w.open && WellFormed(job) then (w.(open := w.open[sid := Session(job, Opened)]), Quiet) else (w, Quiet)
    case Advance(sid) => if sid in w.open then Advanced(w, sid) else (w, Quiet)
    case Rollback(sid) => (Close(w, sid), Quiet)
  }

  function Run(w: World, steps: seq<Step>): World
    decreases |steps|
  {
    if steps == [] then w else Next(Run(w, steps[..|steps| - 1]), steps[|steps| - 1]).0
  }

  // ----- the invariant

  /** The statement is one this job may send. */
  predicate Fits(job: Job, change: Change) {
    match change
    case Nothing => job.Move?
    case Insert(row) => job.Book? && row == job.row
    case SetTimes(starts, ends) =>
      job.Move? && (starts.Some? ==> starts.value == job.starts) && (ends.Some? ==> ends.value == job.ends)
    case SetStatus(status, noShow) => job.Mark? && status == job.status && noShow == job.noShow
  }

  /** Nothing is known of a session that has not flushed but that its row exists: its reads may all be stale. */
  predicate SessionSafe(w: World, sid: nat)
    requires sid in w.open
  {
    var s := w.open[sid];
    && WellFormed(s.job)
    && (!s.phase.Opened? ==> !Missing(w.committed, s.job))
    && (s.phase.Unwritten? ==> s.job.Move?)
    && (s.phase.Flushed? ==>
          && !s.phase.change.Nothing? && Fits(s.job, s.phase.change)
          && (s.job.Book? ==> s.job.id !in w.committed)
          && !Missing(w.committed, s.job)
          && s.phase.row == Written(Current(w.committed, s.job), s.phase.change)
          && Admits(w.committed, s.job.id, s.phase.row))
  }

  predicate PairSafe(s: Session, o: Session) {
    s.phase.Flushed? && o.phase.Flushed? ==> s.job.id != o.job.id && !Clash(s.phase.row, o.phase.row)
  }

  ghost predicate Good(w: World) {
    && ExclusionHolds(w.committed)
    && (forall sid :: sid in w.open ==> SessionSafe(w, sid))
    && (forall a, b :: a in w.open && b in w.open && a != b ==> PairSafe(w.open[a], w.open[b]))
  }

  /** Closing or moving a session to a phase without a row version keeps the invariant. */
  lemma UnflushedChangeIsSafe(w: World, sid: nat, after: World)
    requires Good(w)
    requires after.committed == w.committed
    requires forall o :: o in after.open && o != sid ==> o in w.open && after.open[o] == w.open[o]
    requires sid in after.open ==> SessionSafe(after, sid) && !after.open[sid].phase.Flushed?
    ensures Good(after)
  {
    forall o | o in after.open ensures SessionSafe(after, o) {
      if o != sid { assert SessionSafe(w, o); }
    }
    forall a, b | a in after.open && b in after.open && a != b ensures PairSafe(after.open[a], after.open[b]) {
      if a != sid && b != sid { assert PairSafe(w.open[a], w.open[b]); }
    }
  }

  /**
   A flush that neither waits nor is rejected clashes with no committed row: those
   it may clash with are not being rewritten.
   */
  lemma FlushAdmits(w: World, sid: nat, id: Id, row: Appt)
    requires !Waits(w, sid, id, row) && !Rejects(w, sid, id, row)
    ensures Admits(w.committed, id, row)
  {
    forall j | j in w.committed && j != id ensures !Clash(row, w.committed[j]) {
      if Holds(w.open, sid, j) {
        var other :| other in w.open && other != sid && w.open[other].phase.Flushed? && w.open[other].job.id == j;
      }
    }
  }

  /** And with no uncommitted row version of another session. */
  lemma NewVersionIsSafe(w: World, sid: nat, change: Change, row: Appt)
    requires Good(w) && sid in w.open && !Waits(w, sid, w.open[sid].job.id, row)
    requires Admits(w.committed, w.open[sid].job.id, row)
    requires SessionSafe(GoTo(w, sid, Flushed(change, row)), sid)
    ensures Good(GoTo(w, sid, Flushed(change, row)))
  {
    var after := GoTo(w, sid, Flushed(change, row));
    forall o | o in after.open ensures SessionSafe(after, o) {
      if o != sid { assert SessionSafe(w, o); }
    }
    forall a, b | a in after.open && b in after.open && a != b ensures PairSafe(after.open[a], after.open[b]) {
      assert PairSafe(w.open[a], w.open[b]);
    }
  }

  /** So a flush that goes through clashes with no other row, committed or not. */
  lemma FlushIsSafe(w: World, sid: nat, seen: Appt)
    requires Good(w) && sid in w.open && !w.open[sid].phase.Flushed? && !Missing(w.committed, w.open[sid].job)
    ensures Good(Flush(w, sid, seen).0)
  {
    var job := w.open[sid].job;
    var change := Statement(job, seen);
    var row := Written(Current(w.committed, job), change);
    var after := Flush(w, sid, seen).0;
    assert SessionSafe(w, sid);
    if sid in after.open && after.open[sid].phase.Flushed? {
      FlushAdmits(w, sid, job.id, row);
      NewVersionIsSafe(w, sid, change, row);
    } else {
      UnflushedChangeIsSafe(w, sid, after);
    }
  }

  lemma CommitIsSafe(w: World, sid: nat)
    requires Good(w) && sid in w.open && w.open[sid].phase.Flushed?
    ensures Good(Advanced(w, sid).0)
  {
    var s := w.open[sid];
    var after := Advanced(w, sid).0;
    assert SessionSafe(w, sid);
    AdmittedWriteKeepsExclusion(w.committed, s.job.id, s.phase.row);
    forall o | o in after.open ensures SessionSafe(after, o) {
      assert SessionSafe(w, o) && PairSafe(w.open[o], s);
    }
    forall a, b | a in after.open && b in after.open && a != b ensures PairSafe(after.open[a], after.open[b]) {
      assert PairSafe(w.open[a], w.open[b]);
    }
  }

  lemma StepIsSafe(w: World, step: Step)
    requires Good(w)
    ensures Good(Next(w, step).0)
  {
    var after := Next(w, step).0;
    if after == w {
    } else if step.Advance? {
      var s := w.open[step.sid];
      assert SessionSafe(w, step.sid);
      if s.phase.Flushed? {
        CommitIsSafe(w, step.sid);
      } else if !s.phase.Opened? && !s.phase.Unwritten? && (s.phase.Checked? || !Queries(s.job)) {
        FlushIsSafe(w, step.sid, s.phase.seen);
      } else {
        UnflushedChangeIsSafe(w, step.sid, after);
      }
    } else {
      UnflushedChangeIsSafe(w, step.sid, after);
    }
  }

  /** Main result: however the sessions interleave and however stale their reads are, the invariant holds. */
  lemma {:induction false} EveryRunIsSafe(w: World, steps: seq<Step>)
    requires Good(w)
    ensures Good(Run(w, steps))
    decreases |steps|
  {
    if steps != [] {
      var before := steps[..|steps| - 1];
      EveryRunIsSafe(w, before);
      StepIsSafe(Run(w, before), steps[|steps| - 1]);
    }
  }

  const EMPTY := World(map[], map[])

  /** In committed rows no minute of an employee, or of a room, is ever promised twice. */
  lemma NoDoubleBookingEver(steps: seq<Step>, i: Id, j: Id, m: int)
    requires var rows := Run(EMPTY, steps).committed;
             && i in rows && j in rows && i != j
             && rows[i].tenant == rows[j].tenant && Active(rows[i]) && Active(rows[j])
             && (rows[i].employee == rows[j].employee || (rows[i].room.Some? && rows[i].room == rows[j].room))
    ensures var rows := Run(EMPTY, steps).committed;
            !(Within(m, rows[i].starts, rows[i].ends) && Within(m, rows[j].starts, rows[j].ends))
  {
    assert Good(EMPTY);
    EveryRunIsSafe(EMPTY, steps);
    ExclusionMeansNoDoubleBooking(Run(EMPTY, steps).committed, i, j, m);
  }

  // ----- refinement of an atomic "write if free"

  /** The atomic specification: apply the statement if its row version clashes with nothing. */
  function WriteIfFree(appts: Appts, job: Job, change: Change): Option<Appts> {
    if Missing(appts, job) || (job.Book? && job.id in appts) then None
    else if change.Nothing? then Some(appts)
    else
      var row := Written(Current(appts, job), change);
      if Admits(appts, job.id, row) then Some(appts[job.id := row]) else None
  }

  /** A call and the statement it sent. */
  datatype Write = Write(job: Job, change: Change)

  function Replay(appts: Appts, writes: seq<Write>): Option<Appts>
    decreases |writes|
  {
    if writes == [] then Some(appts)
    else
      var before, last := Replay(appts, writes[..|writes| - 1]), writes[|writes| - 1];
      if before.None? then None else WriteIfFree(before.value, last.job, last.change)
  }

  /** The calls of a run, with their statements, in the order of their commits. */
  function CommitOrder(w: World, steps: seq<Step>): seq<Write>
    decreases |steps|
  {
    if steps == [] then []
    else
      var before := steps[..|steps| - 1];
      var event := Next(Run(w, before), steps[|steps| - 1]).1;
      CommitOrder(w, before) + (if event.Committed? then [Write(event.job, event.change)] else [])
  }

  lemma CommitWritesIfFree(w: World, step: Step)
    requires Good(w)
    ensures var (after, event) := Next(w, step);
            if event.Committed? then
              && !Missing(w.committed, event.job) && Fits(event.job, event.change)
              && WriteIfFree(w.committed, event.job, event.change) == Some(after.committed)
            else after.committed == w.committed
  {
    if step.Advance? && step.sid in w.open {
      assert SessionSafe(w, step.sid);
    }
  }

  /** Main result: the commits of any run, taken in order, are a serial run of atomic writes, and each succeeds. */
  lemma {:induction false} RunRefinesSerialWrites(w: World, steps: seq<Step>)
    requires Good(w)
    ensures Replay(w.committed, CommitOrder(w, steps)) == Some(Run(w, steps).committed)
    decreases |steps|
  {
    if steps != [] {
      var before := steps[..|steps| - 1];
      var mid := Run(w, before);
      RunRefinesSerialWrites(w, before);
      EveryRunIsSafe(w, before);
      CommitWritesIfFree(mid, steps[|steps| - 1]);
      var event := Next(mid, steps[|steps| - 1]).1;
      if event.Committed? {
        assert CommitOrder(w, steps)[..|CommitOrder(w, steps)| - 1] == CommitOrder(w, before);
      } else {
        assert CommitOrder(w, steps) == CommitOrder(w, before);
      }
    }
  }

  /** The service call run alone: status test, slot query, then the write of all it asks for. */
  function ServiceAlone(appts: Appts, job: Job): Option<Appts> {
    if Missing(appts, job) || !StatusGuard(appts, job) then None
    else
      var row := Target(appts, job);
      if Queries(job) && SlotTaken(appts, job.id, row) then None
      else if job.Book? && job.id in appts then None
      else if Admits(appts, job.id, row) then Some(appts[job.id := row])
      else None
  }

  /** The columns a reschedule left out have the value it asked for. */
  predicate OmissionsHold(appts: Appts, job: Job, change: Change)
    requires !Missing(appts, job)
  {
    job.Move? ==>
      var current := appts[job.id];
      && (change.Nothing? || (change.SetTimes? && change.starts.None?) ==> current.starts == job.starts)
      && (change.Nothing? || (change.SetTimes? && change.ends.None?) ==> current.ends == job.ends)
  }

  /** At this point the status test passes, the slot query finds nothing, and no left-out column has changed. */
  predicate PassesAlone(appts: Appts, job: Job, change: Change)
    requires !Missing(appts, job)
  {
    && StatusGuard(appts, job)
    && (Queries(job) ==> !SlotTaken(appts, job.id, Target(appts, job)))
    && OmissionsHold(appts, job, change)
  }

  lemma OmissionsMakeTheDifference(appts: Appts, job: Job, change: Change)
    requires !Missing(appts, job) && Fits(job, change)
    ensures Written(Current(appts, job), change) == Target(appts, job) <==> OmissionsHold(appts, job, change)
  {
  }

  /** A reschedule to the times its row has: writing it all again changes nothing. */
  lemma NothingToWrite(appts: Appts, job: Job)
    requires ExclusionHolds(appts) && job.Move? && job.id in appts && OmissionsHold(appts, job, Nothing)
    ensures Admits(appts, job.id, Target(appts, job)) && appts[job.id := Target(appts, job)] == appts
  {
    assert Target(appts, job) == appts[job.id];
  }

  /**
   Would the call, alone at its place in the commit order, also have succeeded
   with the same result? Exactly when the status test and the slot query still
   pass there and no column it left out has changed.
   */
  lemma CommittedCallSucceedsAlone(w: World, step: Step)
    requires Good(w) && Next(w, step).1.Committed?
    ensures var (after, event) := Next(w, step);
            && !Missing(w.committed, event.job)
            && (ServiceAlone(w.committed, event.job) == Some(after.committed) <==>
                  PassesAlone(w.committed, event.job, event.change))
  {
    var (after, event) := Next(w, step);
    CommitWritesIfFree(w, step);
    OmissionsMakeTheDifference(w.committed, event.job, event.change);
    assert after.committed[event.job.id] == Written(Current(w.committed, event.job), event.change);
    if event.change.Nothing? && OmissionsHold(w.committed, event.job, Nothing) {
      NothingToWrite(w.committed, event.job);
    }
  }

  /** While all rows have a positive length, the slot query is no obstacle: a create always succeeds alone. */
  lemma CreateSucceedsAlone(w: World, step: Step)
    requires Good(w) && PositiveLengths(w.committed) && Next(w, step).1.Committed? && Next(w, step).1.job.Book?
    ensures ServiceAlone(w.committed, Next(w, step).1.job) == Some(Next(w, step).0.committed)
  {
    var job := Next(w, step).1.job;
    CommitWritesIfFree(w, step);
    CommittedCallSucceedsAlone(w, step);
    assert SessionSafe(w, step.sid);
    QueryEqualsConstraint(w.committed, job.id, job.row);
  }

  /** The calls of a commit order, each run alone. */
  function ReplayAlone(appts: Appts, writes: seq<Write>): Option<Appts>
    decreases |writes|
  {
    if writes == [] then Some(appts)
    else
      var before := ReplayAlone(appts, writes[..|writes| - 1]);
      if before.None? then None else ServiceAlone(before.value, writes[|writes| - 1].job)
  }

  /** Run alone in commit order, the calls reach the run's committed rows at each point of the run. */
  predicate TracksAlone(w: World, steps: seq<Step>)
    decreases |steps|
  {
    && ReplayAlone(w.committed, CommitOrder(w, steps)) == Some(Run(w, steps).committed)
    && (steps != [] ==> TracksAlone(w, steps[..|steps| - 1]))
  }

  /** Every call of the run that committed would still have passed its tests at its commit. */
  predicate GuardsPass(w: World, steps: seq<Step>)
    decreases |steps|
  {
    steps == [] ||
    var before := steps[..|steps| - 1];
    var mid := Run(w, before);
    var event := Next(mid, steps[|steps| - 1]).1;
    && GuardsPass(w, before)
    && (event.Committed? ==> !Missing(mid.committed, event.job) && PassesAlone(mid.committed, event.job, event.change))
  }

  lemma ReplayOneMore(appts: Appts, writes: seq<Write>, last: Write)
    ensures ReplayAlone(appts, writes + [last]) ==
              var before := ReplayAlone(appts, writes); if before.None? then None
                  else ServiceAlone(before.value, last.job)
  {
    assert (writes + [last])[..|writes|] == writes;
  }

  /**
   Main result: run alone in the order of their commits, the calls of an
   interleaving all succeed, and reach the same rows at each commit, if and only
   if each would still have passed its tests at its commit.
   */
  lemma {:induction false} RunRefinesServicesAloneExactlyWhenGuardsPass(w: World, steps: seq<Step>)
    requires Good(w)
    ensures TracksAlone(w, steps) <==> GuardsPass(w, steps)
    decreases |steps|
  {
    if steps != [] {
      var before, step := steps[..|steps| - 1], steps[|steps| - 1];
      var mid := Run(w, before);
      RunRefinesServicesAloneExactlyWhenGuardsPass(w, before);
      EveryRunIsSafe(w, before);
      CommitWritesIfFree(mid, step);
      var event := Next(mid, step).1;
      if event.Committed? {
        CommittedCallSucceedsAlone(mid, step);
        ReplayOneMore(w.committed, CommitOrder(w, before), Write(event.job, event.change));
      } else {
        assert CommitOrder(w, steps) == CommitOrder(w, before);
      }
    }
  }

  // ----- a condition on the callers

  /** The step opens no session on an appointment another open session works on. */
  predicate Apart(w: World, step: Step) {
    step.Begin? ==> forall o :: o in w.open ==> w.open[o].job.id != step.job.id
  }

  /** Throughout the run each appointment has one open session at most. */
  predicate OneSessionPerRow(w: World, steps: seq<Step>)
    decreases |steps|
  {
    steps == [] ||
    (OneSessionPerRow(w, steps[..|steps| - 1]) && Apart(Run(w, steps[..|steps| - 1]), steps[|steps| - 1]))
  }

  /** What a session has seen of its row, or sent to it, is still up to date. */
  predicate UpToDate(appts: Appts, s: Session) {
    s.phase.Opened? ||
    (&& !Missing(appts, s.job) && StatusGuard(appts, s.job)
     && var current := Current(appts, s.job);
        match s.phase
        case Opened => true
        case Loaded(seen) => seen == current
        case EmployeeFree(seen) => seen == current
        case Checked(seen) => seen == current
        case Flushed(change, _) => change == Statement(s.job, current)
        case Unwritten => Statement(s.job, current).Nothing?)
  }

  ghost predicate Calm(w: World) {
    && PositiveLengths(w.committed)
    && (forall sid :: sid in w.open ==> UpToDate(w.committed, w.open[sid]))
    && (forall a, b :: a in w.open && b in w.open && a != b ==> w.open[a].job.id != w.open[b].job.id)
  }

  lemma CommitStaysCalm(w: World, sid: nat)
    requires Good(w) && Calm(w) && sid in w.open && w.open[sid].phase.Flushed?
    ensures Calm(Advanced(w, sid).0)
  {
    var s := w.open[sid];
    var after := Advanced(w, sid).0;
    assert SessionSafe(w, sid) && UpToDate(w.committed, s);
    forall o | o in after.open ensures UpToDate(after.committed, after.open[o]) {
      assert UpToDate(w.committed, w.open[o]) && w.open[o].job.id != s.job.id;
    }
  }

  /** A session that only moves on or closes leaves the others as they were. */
  lemma MovingOnStaysCalm(w: World, sid: nat, after: World)
    requires Calm(w) && sid in w.open && after.committed == w.committed
    requires forall o :: o in after.open && o != sid ==> o in w.open && after.open[o] == w.open[o]
    requires sid in after.open ==> after.open[sid].job == w.open[sid].job && UpToDate(w.committed, after.open[sid])
    ensures Calm(after)
  {
    forall o | o in after.open ensures UpToDate(after.committed, after.open[o]) {
      if o != sid { assert UpToDate(w.committed, w.open[o]); }
    }
  }

  lemma FlushStaysCalm(w: World, sid: nat, seen: Appt)
    requires Calm(w) && sid in w.open && !Missing(w.committed, w.open[sid].job)
    requires UpToDate(w.committed, w.open[sid]) && StatusGuard(w.committed, w.open[sid].job)
    requires seen == Current(w.committed, w.open[sid].job)
    ensures Calm(Flush(w, sid, seen).0)
  {
    MovingOnStaysCalm(w, sid, Flush(w, sid, seen).0);
  }

  lemma QueryStaysCalm(w: World, sid: nat)
    requires Calm(w) && sid in w.open && (w.open[sid].phase.Loaded? || w.open[sid].phase.EmployeeFree?)
    ensures Calm(Query(w, sid).0)
  {
    assert UpToDate(w.committed, w.open[sid]);
    MovingOnStaysCalm(w, sid, Query(w, sid).0);
  }

  /** A step of one session that commits nothing. */
  lemma QuietStepStaysCalm(w: World, sid: nat)
    requires Calm(w) && sid in w.open && !w.open[sid].phase.Flushed?
    ensures Calm(Advanced(w, sid).0)
  {
    var s := w.open[sid];
    assert UpToDate(w.committed, s);
    if s.phase.Opened? || s.phase.Unwritten? || Missing(w.committed, s.job) {
      MovingOnStaysCalm(w, sid, Advanced(w, sid).0);
    } else if s.phase.Checked? || !Queries(s.job) {
      FlushStaysCalm(w, sid, s.phase.seen);
    } else {
      QueryStaysCalm(w, sid);
    }
  }

  lemma StepStaysCalm(w: World, step: Step)
    requires Good(w) && Calm(w) && Apart(w, step)
    ensures Calm(Next(w, step).0)
  {
    if step.Advance? && step.sid in w.open {
      if w.open[step.sid].phase.Flushed? { CommitStaysCalm(w, step.sid); } else { QuietStepStaysCalm(w, step.sid); }
    } else {
      var after := Next(w, step).0;
      forall o | o in after.open ensures UpToDate(after.committed, after.open[o]) {
        if o in w.open { assert UpToDate(w.committed, w.open[o]); }
      }
    }
  }

  lemma CalmCommitPasses(w: World, step: Step)
    requires Good(w) && Calm(w) && Next(w, step).1.Committed?
    ensures var event := Next(w, step).1;
            !Missing(w.committed, event.job) && PassesAlone(w.committed, event.job, event.change)
  {
    var s := w.open[step.sid];
    var row := Target(w.committed, s.job);
    assert SessionSafe(w, step.sid) && UpToDate(w.committed, s);
    OmissionsMakeTheDifference(w.committed, s.job, Next(w, step).1.change);
    if Queries(s.job) {
      QueryEqualsConstraint(w.committed, s.job.id, row);
      assert Admits(w.committed, s.job.id, row);
    }
  }

  /**
   What callers can do: while no session opens on an appointment that another
   open session works on, every call also succeeds alone with the same result,
   and no row loses its length.
   */
  lemma {:induction false} OneSessionPerRowPassesGuards(w: World, steps: seq<Step>)
    requires Good(w) && Calm(w) && OneSessionPerRow(w, steps)
    ensures Calm(Run(w, steps)) && GuardsPass(w, steps)
    decreases |steps|
  {
    if steps != [] {
      var before, step := steps[..|steps| - 1], steps[|steps| - 1];
      OneSessionPerRowPassesGuards(w, before);
      EveryRunIsSafe(w, before);
      StepStaysCalm(Run(w, before), step);
      if Next(Run(w, before), step).1.Committed? { CalmCommitPasses(Run(w, before), step); }
    }
  }

  // ----- a session that has the database to itself

  function Alone(appts: Appts, job: Job, phase: Phase): World {
    World(appts, map[0 := Session(job, phase)])
  }

  function SoloSteps(job: Job): seq<Step> {
    [Begin(0, job), Advance(0), Advance(0), Advance(0), Advance(0), Advance(0)]
  }

  function Advances(n: nat): seq<Step> {
    seq(n, _ => Advance(0))
  }

  /** The rows after the call, or as they were if it fails. */
  function OrElse(after: Option<Appts>, before: Appts): Appts {
    if after.Some? then after.value else before
  }

  lemma {:induction false} NothingLeftToDo(w: World, n: nat)
    requires w.open == map[]
    ensures Run(w, Advances(n)) == w
  {
    if n > 0 {
      assert Advances(n)[..n - 1] == Advances(n - 1);
      NothingLeftToDo(w, n - 1);
    }
  }

  lemma SoloLoads(appts: Appts, job: Job)
    ensures Next(Alone(appts, job, Opened), Advance(0)).0 ==
              if Missing(appts, job) || !StatusGuard(appts, job) then World(appts, map[])
              else Alone(appts, job, Loaded(Current(appts, job)))
  {
  }

  lemma SoloQueries(appts: Appts, job: Job)
    requires !Missing(appts, job) && Queries(job)
    ensures var seen, row := Current(appts, job), Target(appts, job);
            && Next(Alone(appts, job, Loaded(seen)), Advance(0)).0 ==
                 (if EmployeeTaken(appts, row.tenant, row.employee, row.starts, row.ends, Some(job.id))
                     then World(appts, map[])
                  else Alone(appts, job, EmployeeFree(seen)))
            && Next(Alone(appts, job, EmployeeFree(seen)), Advance(0)).0 ==
                 (if RoomTaken(appts, row.tenant, row.room, row.starts, row.ends, Some(job.id)) then World(appts, map[])
                  else Alone(appts, job, Checked(seen)))
  {
  }

  /** Its flush meets no other session, so it goes through exactly if the constraints admit the row. */
  lemma SoloFlushes(appts: Appts, job: Job, phase: Phase)
    requires !Missing(appts, job) && PositiveLengths(appts) && WellFormed(job)
    requires phase == (if Queries(job) then Checked(Current(appts, job)) else Loaded(Current(appts, job)))
    ensures var seen, row := Current(appts, job), Target(appts, job);
            var change := Statement(job, seen);
            Next(Alone(appts, job, phase), Advance(0)).0 ==
              if change.Nothing? then Alone(appts, job, Unwritten)
              else if (job.Book? && job.id in appts) || !Admits(appts, job.id, row) then World(appts, map[])
              else Alone(appts, job, Flushed(change, row))
  {
    assert Written(Current(appts, job), Statement(job, Current(appts, job))) == Target(appts, job);
  }

  lemma SoloCommits(appts: Appts, job: Job, change: Change, row: Appt)
    ensures Next(Alone(appts, job, Flushed(change, row)), Advance(0)).0 == World(appts[job.id := row], map[])
    ensures Next(Alone(appts, job, Unwritten), Advance(0)).0 == World(appts, map[])
  {
  }

  /** One step, then the rest. */
  lemma {:induction false} StepThenRest(w: World, step: Step, rest: seq<Step>)
    ensures Run(w, [step] + rest) == Run(Next(w, step).0, rest)
    decreases |rest|
  {
    var steps := [step] + rest;
    if rest == [] {
      assert steps[..0] == [];
    } else {
      assert steps[..|steps| - 1] == [step] + rest[..|rest| - 1];
      StepThenRest(w, step, rest[..|rest| - 1]);
    }
  }

  lemma OneAdvance(w: World, n: nat)
    requires n > 0
    ensures Run(w, Advances(n)) == Run(Next(w, Advance(0)).0, Advances(n - 1))
  {
    assert Advances(n) == [Advance(0)] + Advances(n - 1);
    StepThenRest(w, Advance(0), Advances(n - 1));
  }

  /** From the flush on, two more actions end the session with what the call does alone. */
  lemma SoloEnds(appts: Appts, job: Job, phase: Phase, n: nat)
    requires ExclusionHolds(appts) && PositiveLengths(appts) && WellFormed(job) && n >= 2
    requires !Missing(appts, job) && StatusGuard(appts, job)
    requires Queries(job) ==> !SlotTaken(appts, job.id, Target(appts, job))
    requires phase == (if Queries(job) then Checked(Current(appts, job)) else Loaded(Current(appts, job)))
    ensures Run(Alone(appts, job, phase), Advances(n)) == World(OrElse(ServiceAlone(appts, job), appts), map[])
  {
    var change, row := Statement(job, Current(appts, job)), Target(appts, job);
    SoloFlushes(appts, job, phase);
    SoloCommits(appts, job, change, row);
    OneAdvance(Alone(appts, job, phase), n);
    if change.Nothing? {
      NothingToWrite(appts, job);
      OneAdvance(Alone(appts, job, Unwritten), n - 1);
      NothingLeftToDo(World(appts, map[]), n - 2);
    } else if (job.Book? && job.id in appts) || !Admits(appts, job.id, row) {
      NothingLeftToDo(World(appts, map[]), n - 1);
    } else {
      OneAdvance(Alone(appts, job, Flushed(change, row)), n - 1);
      NothingLeftToDo(World(appts[job.id := row], map[]), n - 2);
    }
  }

  lemma SoloChecks(appts: Appts, job: Job)
    requires ExclusionHolds(appts) && PositiveLengths(appts) && WellFormed(job)
    requires !Missing(appts, job) && StatusGuard(appts, job) && Queries(job)
    ensures Run(Alone(appts, job, Loaded(Current(appts, job))), Advances(4)) ==
              World(OrElse(ServiceAlone(appts, job), appts), map[])
  {
    var seen, row := Current(appts, job), Target(appts, job);
    SoloQueries(appts, job);
    OneAdvance(Alone(appts, job, Loaded(seen)), 4);
    if EmployeeTaken(appts, row.tenant, row.employee, row.starts, row.ends, Some(job.id)) {
      NothingLeftToDo(World(appts, map[]), 3);
    } else {
      OneAdvance(Alone(appts, job, EmployeeFree(seen)), 3);
      if RoomTaken(appts, row.tenant, row.room, row.starts, row.ends, Some(job.id)) {
        NothingLeftToDo(World(appts, map[]), 2);
      } else {
        SoloEnds(appts, job, Checked(seen), 2);
      }
    }
  }

  /**
   A session that has the database to itself does exactly what the call run
   alone is specified to do: it commits that result, or fails and leaves the rows.
   */
  lemma SoloSessionIsServiceAlone(appts: Appts, job: Job)
    requires ExclusionHolds(appts) && PositiveLengths(appts) && WellFormed(job)
    ensures Run(World(appts, map[]), SoloSteps(job)) == World(OrElse(ServiceAlone(appts, job), appts), map[])
  {
    var begun := Alone(appts, job, Opened);
    assert SoloSteps(job) == [Begin(0, job)] + Advances(5);
    StepThenRest(World(appts, map[]), Begin(0, job), Advances(5));
    assert Next(World(appts, map[]), Begin(0, job)).0 == begun;
    OneAdvance(begun, 5);
    SoloLoads(appts, job);
    if Missing(appts, job) || !StatusGuard(appts, job) {
      NothingLeftToDo(World(appts, map[]), 4);
    } else if Queries(job) {
      SoloChecks(appts, job);
    } else {
      SoloEnds(appts, job, Loaded(Current(appts, job)), 4);
    }
  }

  // ----- what stale reads do

  lemma {:induction false} RunFollows(worlds: seq<World>, steps: seq<Step>, n: nat)
    requires n <= |steps| && |worlds| == |steps| + 1
    requires forall k :: 0 <= k < |steps| ==> Next(worlds[k], steps[k]).0 == worlds[k + 1]
    ensures Run(worlds[0], steps[..n]) == worlds[n]
  {
    if n > 0 {
      RunFollows(worlds, steps, n - 1);
      assert steps[..n][..n - 1] == steps[..n - 1];
    }
  }

  /** A reschedule reads its row, a cancellation of the row runs and commits, the reschedule goes on. */
  function StaleSteps(row: Appt, id: Id): seq<Step> {
    [Begin(0, Move(id, row.ends, row.ends + 30)), Advance(0),
     Begin(1, Mark(id, Cancelled, false)), Advance(1), Advance(1), Advance(1),
     Advance(0), Advance(0), Advance(0)]
  }

  function StaleWorlds(row: Appt, id: Id): seq<World> {
    var job, cancel := Move(id, row.ends, row.ends + 30), Mark(id, Cancelled, false);
    var gone := row.(status := Cancelled);
    var first := Session(job, Loaded(row));
    [ World(map[id := row], map[]),
      World(map[id := row], map[0 := Session(job, Opened)]),
      World(map[id := row], map[0 := first]),
      World(map[id := row], map[0 := first, 1 := Session(cancel, Opened)]),
      World(map[id := row], map[0 := first, 1 := Session(cancel, Loaded(row))]),
      World(map[id := row], map[0 := first, 1 := Session(cancel, Flushed(SetStatus(Cancelled, false), gone))]),
      World(map[id := gone], map[0 := first]),
      World(map[id := gone], map[0 := Session(job, EmployeeFree(row))]),
      World(map[id := gone], map[0 := Session(job, Checked(row))]),
      World(map[id := gone],
            map[0 := Session(job, Flushed(SetTimes(Some(row.ends), Some(row.ends + 30)),
                                          gone.(starts := row.ends, ends := row.ends + 30)))])]
  }

  lemma StaleRunUpToReads(row: Appt, id: Id, k: nat)
    requires row.status == Pending && row.starts < row.ends && k < 4
    ensures Next(StaleWorlds(row, id)[k], StaleSteps(row, id)[k]).0 == StaleWorlds(row, id)[k + 1]
  {
  }

  lemma StaleRunUpToCancellation(row: Appt, id: Id, k: nat)
    requires row.status == Pending && row.starts < row.ends && 4 <= k < 6
    ensures Next(StaleWorlds(row, id)[k], StaleSteps(row, id)[k]).0 == StaleWorlds(row, id)[k + 1]
  {
  }

  lemma StaleRunUpToQuery(row: Appt, id: Id, k: nat)
    requires row.status == Pending && row.starts < row.ends && 6 <= k < 8
    ensures Next(StaleWorlds(row, id)[k], StaleSteps(row, id)[k]).0 == StaleWorlds(row, id)[k + 1]
  {
  }

  lemma StaleRunUpToFlush(row: Appt, id: Id, k: nat)
    requires row.status == Pending && row.starts < row.ends && 8 <= k < 9
    ensures Next(StaleWorlds(row, id)[k], StaleSteps(row, id)[k]).0 == StaleWorlds(row, id)[k + 1]
  {
  }

  /** The status test can be stale: a reschedule commits on a row that was cancelled after it read it. */
  lemma StaleRescheduleCommits(row: Appt, id: Id)
    requires row.status == Pending && row.starts < row.ends
    ensures var w := World(map[id := row], map[]);
            var job := Move(id, row.ends, row.ends + 30);
            var steps := StaleSteps(row, id);
            && Good(w)
            && Next(Run(w, steps), Advance(0)).1 == Committed(job, SetTimes(Some(row.ends), Some(row.ends + 30)))
            && ServiceAlone(Run(w, steps).committed, job) == None
  {
    StaleRun(row, id);
  }

  lemma StaleRun(row: Appt, id: Id)
    requires row.status == Pending && row.starts < row.ends
    ensures Run(World(map[id := row], map[]), StaleSteps(row, id)) == StaleWorlds(row, id)[9]
  {
    var steps, worlds := StaleSteps(row, id), StaleWorlds(row, id);
    forall k | 0 <= k < 9 ensures Next(worlds[k], steps[k]).0 == worlds[k + 1] {
      if k < 4 {
        StaleRunUpToReads(row, id, k);
      } else if k < 6 {
        StaleRunUpToCancellation(row, id, k);
      } else if k < 8 {
        StaleRunUpToQuery(row, id, k);
      } else {
        StaleRunUpToFlush(row, id, k);
      }
    }
    RunFollows(worlds, steps, 9);
    assert steps[..9] == steps;
  }

  /** Two sessions read a pending row; one cancels it and commits, the other still confirms it. */
  function RevivalSteps(id: Id): seq<Step> {
    [Begin(0, Mark(id, Confirmed, false)), Advance(0),
     Begin(1, Mark(id, Cancelled, false)), Advance(1), Advance(1), Advance(1),
     Advance(0)]
  }

  function RevivalWorlds(row: Appt, id: Id): seq<World> {
    var confirm, cancel := Mark(id, Confirmed, false), Mark(id, Cancelled, false);
    var gone := row.(status := Cancelled);
    var first := Session(confirm, Loaded(row));
    [ World(map[id := row], map[]),
      World(map[id := row], map[0 := Session(confirm, Opened)]),
      World(map[id := row], map[0 := first]),
      World(map[id := row], map[0 := first, 1 := Session(cancel, Opened)]),
      World(map[id := row], map[0 := first, 1 := Session(cancel, Loaded(row))]),
      World(map[id := row], map[0 := first, 1 := Session(cancel, Flushed(SetStatus(Cancelled, false), gone))]),
      World(map[id := gone], map[0 := first]),
      World(map[id := gone],
          map[0 := Session(confirm, Flushed(SetStatus(Confirmed, false), gone.(status := Confirmed)))])]
  }

  lemma RevivalUpToReads(row: Appt, id: Id, k: nat)
    requires row.status == Pending && row.starts < row.ends && k < 4
    ensures Next(RevivalWorlds(row, id)[k], RevivalSteps(id)[k]).0 == RevivalWorlds(row, id)[k + 1]
  {
  }

  lemma RevivalUpToCancellation(row: Appt, id: Id, k: nat)
    requires row.status == Pending && row.starts < row.ends && 4 <= k < 6
    ensures Next(RevivalWorlds(row, id)[k], RevivalSteps(id)[k]).0 == RevivalWorlds(row, id)[k + 1]
  {
  }

  lemma RevivalAfterCancellation(row: Appt, id: Id, k: nat)
    requires row.status == Pending && row.starts < row.ends && 6 <= k < 7
    ensures Next(RevivalWorlds(row, id)[k], RevivalSteps(id)[k]).0 == RevivalWorlds(row, id)[k + 1]
  {
  }

  /** Worse, a stale status change revives a row: it commits CONFIRMED over a committed cancellation. */
  lemma StaleConfirmationRevivesRow(row: Appt, id: Id)
    requires row.status == Pending && row.starts < row.ends
    ensures var w := World(map[id := row], map[]);
            var mid := Run(w, RevivalSteps(id));
            && Good(w)
            && mid.committed == map[id := row.(status := Cancelled)]
            && Next(mid, Advance(0)).1 == Committed(Mark(id, Confirmed, false), SetStatus(Confirmed, false))
            && Next(mid, Advance(0)).0.committed == map[id := row.(status := Confirmed)]
            && !Allowed(Cancelled, Confirmed)
  {
    RevivalRun(row, id);
  }

  lemma RevivalRun(row: Appt, id: Id)
    requires row.status == Pending && row.starts < row.ends
    ensures Run(World(map[id := row], map[]), RevivalSteps(id)) == RevivalWorlds(row, id)[7]
  {
    var steps, worlds := RevivalSteps(id), RevivalWorlds(row, id);
    forall k | 0 <= k < 7 ensures Next(worlds[k], steps[k]).0 == worlds[k + 1] {
      if k < 4 {
        RevivalUpToReads(row, id, k);
      } else if k < 6 {
        RevivalUpToCancellation(row, id, k);
      } else {
        RevivalAfterCancellation(row, id, k);
      }
    }
    RunFollows(worlds, steps, 7);
    assert steps[..7] == steps;
  }

  /**
   Two reschedules of one row, between which the service became longer: the
   first keeps the start it loaded and so sends the new end only; the second
   moves the row to just after it, and commits first.
   */
  function MixedSteps(row: Appt, id: Id): seq<Step> {
    [Begin(0, Move(id, row.starts, row.ends + 30)), Advance(0),
     Begin(1, Move(id, row.ends + 30, row.ends + 60)), Advance(1), Advance(1), Advance(1), Advance(1), Advance(1),
     Advance(0), Advance(0), Advance(0)]
  }

  function MixedWorlds(row: Appt, id: Id): seq<World> {
    var longer, later := Move(id, row.starts, row.ends + 30), Move(id, row.ends + 30, row.ends + 60);
    var moved := row.(starts := row.ends + 30, ends := row.ends + 60);
    var first := Session(longer, Loaded(row));
    [ World(map[id := row], map[]),
      World(map[id := row], map[0 := Session(longer, Opened)]),
      World(map[id := row], map[0 := first]),
      World(map[id := row], map[0 := first, 1 := Session(later, Opened)]),
      World(map[id := row], map[0 := first, 1 := Session(later, Loaded(row))]),
      World(map[id := row], map[0 := first, 1 := Session(later, EmployeeFree(row))]),
      World(map[id := row], map[0 := first, 1 := Session(later, Checked(row))]),
      World(map[id := row],
            map[0 := first, 1 := Session(later, Flushed(SetTimes(Some(row.ends + 30), Some(row.ends + 60)), moved))]),
      World(map[id := moved], map[0 := first]),
      World(map[id := moved], map[0 := Session(longer, EmployeeFree(row))]),
      World(map[id := moved], map[0 := Session(longer, Checked(row))]),
      World(map[id := moved],
            map[0 := Session(longer, Flushed(SetTimes(None, Some(row.ends + 30)), moved.(ends := row.ends + 30)))])]
  }

  lemma MixedUpToReads(row: Appt, id: Id, k: nat)
    requires row.status == Pending && row.starts < row.ends && k < 4
    ensures Next(MixedWorlds(row, id)[k], MixedSteps(row, id)[k]).0 == MixedWorlds(row, id)[k + 1]
  {
  }

  lemma MixedUpToCheck(row: Appt, id: Id, k: nat)
    requires row.status == Pending && row.starts < row.ends && 4 <= k < 6
    ensures Next(MixedWorlds(row, id)[k], MixedSteps(row, id)[k]).0 == MixedWorlds(row, id)[k + 1]
  {
  }

  lemma MixedUpToMove(row: Appt, id: Id, k: nat)
    requires row.status == Pending && row.starts < row.ends && 6 <= k < 8
    ensures Next(MixedWorlds(row, id)[k], MixedSteps(row, id)[k]).0 == MixedWorlds(row, id)[k + 1]
  {
  }

  lemma MixedAfterMove(row: Appt, id: Id, k: nat)
    requires row.status == Pending && row.starts < row.ends && 8 <= k < 11
    ensures Next(MixedWorlds(row, id)[k], MixedSteps(row, id)[k]).0 == MixedWorlds(row, id)[k + 1]
  {
  }

  lemma MixedRun(row: Appt, id: Id)
    requires row.status == Pending && row.starts < row.ends
    ensures Run(World(map[id := row], map[]), MixedSteps(row, id)) == MixedWorlds(row, id)[11]
  {
    var steps, worlds := MixedSteps(row, id), MixedWorlds(row, id);
    forall k | 0 <= k < 11 ensures Next(worlds[k], steps[k]).0 == worlds[k + 1] {
      if k < 4 {
        MixedUpToReads(row, id, k);
      } else if k < 6 {
        MixedUpToCheck(row, id, k);
      } else if k < 8 {
        MixedUpToMove(row, id, k);
      } else {
        MixedAfterMove(row, id, k);
      }
    }
    RunFollows(worlds, steps, 11);
    assert steps[..11] == steps;
  }

  /** Their committed result is a row of length zero, at a time neither of them asked for, that holds no slot at all. */
  lemma StaleReschedulesEmptyRow(row: Appt, id: Id)
    requires row.status == Pending && row.starts < row.ends
    ensures var w := World(map[id := row], map[]);
            var after := Next(Run(w, MixedSteps(row, id)), Advance(0)).0;
            && Good(w) && after.open == map[]
            && after.committed == map[id := row.(starts := row.ends + 30, ends := row.ends + 30)]
  {
    MixedRun(row, id);
  }

  // ----- conflicts and waiting

  /** The row version a "slot taken" answer is about: what was asked for at the query, what was written at the flush. */
  function Refuted(w: World, sid: nat): Appt
    requires sid in w.open && !Missing(w.committed, w.open[sid].job)
    requires w.open[sid].phase.Loaded? || w.open[sid].phase.EmployeeFree? || w.open[sid].phase.Checked?
  {
    var s := w.open[sid];
    if s.phase.Checked? then Written(Current(w.committed, s.job), Statement(s.job, s.phase.seen))
    else Asked(s.phase.seen, s.job)
  }

  /**
   Every "slot taken" answer has a committed active row of another appointment
   to blame, that holds the employee or room and whose time crosses the one
   refused; at the flush their ranges overlap.
   */
  lemma ConflictIsJustified(w: World, step: Step)
    requires Good(w)
    requires Next(w, step).1 == TakenAtCheck || Next(w, step).1 == TakenAtFlush
    ensures step.Advance? && step.sid in w.open && !Missing(w.committed, w.open[step.sid].job)
    ensures var phase := w.open[step.sid].phase; phase.Loaded? || phase.EmployeeFree? || phase.Checked?
    ensures var job, row := w.open[step.sid].job, Refuted(w, step.sid);
            || (job.Book? && job.id in w.committed)
            || exists j :: Crossing(w.committed, job.id, row, j)
                 && (Next(w, step).1 == TakenAtFlush ==> Clash(row, w.committed[j]))
  {
    var job := w.open[step.sid].job;
    assert SessionSafe(w, step.sid);
    if Next(w, step).1 == TakenAtCheck {
      CheckIsJustified(w, step.sid);
    } else if !(job.Book? && job.id in w.committed) {
      var row := Refuted(w, step.sid);
      var j :| j in w.committed && j != job.id && Clash(row, w.committed[j]);
      assert Crossing(w.committed, job.id, row, j);
    }
  }

  lemma CheckIsJustified(w: World, sid: nat)
    requires sid in w.open && !Missing(w.committed, w.open[sid].job)
    requires w.open[sid].phase.Loaded? || w.open[sid].phase.EmployeeFree?
    requires Query(w, sid).1 == TakenAtCheck
    ensures exists j :: Crossing(w.committed, w.open[sid].job.id, Refuted(w, sid), j)
  {
    var job, row := w.open[sid].job, Refuted(w, sid);
    var j :| j in w.committed && Meets(w.committed[j], j, row.tenant, row.starts, row.ends, Some(job.id))
             && (w.committed[j].employee == row.employee || (row.room.Some? && w.committed[j].room == row.room));
    assert Crossing(w.committed, job.id, row, j);
  }

  /** Under this step rule waiting never locks up: while sessions are open, one of them can take its next step. */
  lemma SomeSessionCanStep(w: World)
    requires w.open != map[]
    ensures exists sid :: sid in w.open && Next(w, Advance(sid)).0 != w
  {
    var any :| any in w.open;
    if sid :| sid in w.open && w.open[sid].phase.Flushed? {
      assert sid !in Next(w, Advance(sid)).0.open;
    } else {
      var after := Next(w, Advance(any)).0;
      assert any in after.open ==> after.open[any].phase != w.open[any].phase;
    }
  }
}
