/**
 Appointment rows, the status graph, the slot query the services run before a
 write, and the two exclusion constraints the database enforces at the write.
 Times are minutes on one time line.
 */
module Calendar {

  datatype Option<+T> = None | Some(value: T)

  /** UUIDs, as numbers of 128 bits. */
  type Id = n: int | 0 <= n < 0x1_0000_0000_0000_0000_0000_0000_0000_0000

  datatype Status = Pending | Confirmed | Completed | Cancelled | Rescheduled

  datatype Source = Staff | PublicBooking

  datatype Appt = Appt(
    tenant: Id, client: Id, employee: Id, service: Id, room: Option<Id>,
    starts: int, ends: int, status: Status, source: Source, noShow: bool)

  type Appts = map<Id, Appt>

  /** The explicit transition map; a status without an entry allows nothing. */
  predicate Allowed(from: Status, to: Status) {
    match from
    case Pending => to == Confirmed || to == Cancelled
    case Confirmed => to == Completed || to == Cancelled
    case _ => false
  }

  /** The range operator && on tstzrange(a, b) and tstzrange(c, d): an empty range meets nothing. */
  predicate Overlaps(a: int, b: int, c: int, d: int) {
    a < b && c < d && a < d && c < b
  }

  predicate Within(m: int, a: int, b: int) {
    a <= m < b
  }

  /** Ranges overlap exactly when some minute lies in both. */
  lemma OverlapsMeansSharedMinute(a: int, b: int, c: int, d: int)
    ensures Overlaps(a, b, c, d) <==> exists m :: Within(m, a, b) && Within(m, c, d)
  {
    if Overlaps(a, b, c, d) {
      var m := if a < c then c else a;
      assert Within(m, a, b) && Within(m, c, d);
    }
  }

  /** A row still holds its slot unless it is cancelled (COMPLETED rows do). */
  predicate Active(a: Appt) {
    a.status != Cancelled
  }

  /** Both rows fall under one exclusion constraint and their ranges meet. */
  predicate Clash(a: Appt, b: Appt) {
    && a.tenant == b.tenant
    && Active(a) && Active(b)
    && Overlaps(a.starts, a.ends, b.starts, b.ends)
    && (a.employee == b.employee || (a.room.Some? && a.room == b.room))
  }

  /** The two exclusion constraints over the whole table. */
  predicate ExclusionHolds(appts: Appts) {
    forall i, j :: i in appts && j in appts && i != j ==> !Clash(appts[i], appts[j])
  }

  /** The constraint check of one INSERT or UPDATE: version row of id against all other rows. */
  predicate Admits(appts: Appts, id: Id, row: Appt) {
    forall j :: j in appts && j != id ==> !Clash(row, appts[j])
  }

  lemma AdmittedWriteKeepsExclusion(appts: Appts, id: Id, row: Appt)
    requires ExclusionHolds(appts) && Admits(appts, id, row)
    ensures ExclusionHolds(appts[id := row])
  {
    var after := appts[id := row];
    forall i, j | i in after && j in after && i != j
      ensures !Clash(after[i], after[j])
    {
      if j == id { assert !Clash(row, appts[i]); }
    }
  }

  /** What the constraints are for: no minute is in two active rows of an employee or of a room. */
  lemma ExclusionMeansNoDoubleBooking(appts: Appts, i: Id, j: Id, m: int)
    requires ExclusionHolds(appts)
    requires i in appts && j in appts && i != j
    requires appts[i].tenant == appts[j].tenant && Active(appts[i]) && Active(appts[j])
    requires appts[i].employee == appts[j].employee || (appts[i].room.Some? && appts[i].room == appts[j].room)
    ensures !(Within(m, appts[i].starts, appts[i].ends) && Within(m, appts[j].starts, appts[j].ends))
  {
    OverlapsMeansSharedMinute(appts[i].starts, appts[i].ends, appts[j].starts, appts[j].ends);
    assert !Clash(appts[i], appts[j]);
  }

  /** 0 = Monday, for days counted from 0001-01-01 as day 1. */
  function Weekday(day: int): int {
    (day + 6) % 7
  }

  /** Day 1 is a Monday, and weekdays follow each other. */
  lemma WeekdaysFollow(day: int)
    ensures Weekday(1) == 0
    ensures Weekday(day + 1) == if Weekday(day) == 6 then 0 else Weekday(day) + 1
  {
  }

  // ----- the application-level query

  /** The four base conditions of the slot query. */
  predicate Meets(row: Appt, id: Id, tenant: Id, starts: int, ends: int, exclude: Option<Id>) {
    && row.tenant == tenant
    && row.status != Cancelled
    && row.starts < ends
    && row.ends > starts
    && exclude != Some(id)
  }

  predicate EmployeeTaken(appts: Appts, tenant: Id, employee: Id, starts: int, ends: int, exclude: Option<Id>) {
    exists id :: id in appts && Meets(appts[id], id, tenant, starts, ends, exclude) && appts[id].employee == employee
  }

  predicate RoomTaken(appts: Appts, tenant: Id, room: Option<Id>, starts: int, ends: int, exclude: Option<Id>) {
    && room.Some?
    && exists id :: id in appts && Meets(appts[id], id, tenant, starts, ends, exclude) && appts[id].room == room
  }

  predicate HasConflict(appts: Appts, tenant: Id, employee: Id, room: Option<Id>, starts: int, ends: int,
                        exclude: Option<Id>)
  {
    || EmployeeTaken(appts, tenant, employee, starts, ends, exclude)
    || RoomTaken(appts, tenant, room, starts, ends, exclude)
  }

  /** The slot query asked about version row of id, leaving id itself out. */
  predicate SlotTaken(appts: Appts, id: Id, row: Appt) {
    HasConflict(appts, row.tenant, row.employee, row.room, row.starts, row.ends, Some(id))
  }

  predicate PositiveLengths(appts: Appts) {
    forall id :: id in appts ==> appts[id].starts < appts[id].ends
  }

  /**
   The query and the constraint agree on rows of positive length: for an
   active version of id the query finds a row exactly when the write would be
   rejected.
   */
  lemma QueryEqualsConstraint(appts: Appts, id: Id, row: Appt)
    requires PositiveLengths(appts) && row.starts < row.ends && Active(row)
    ensures SlotTaken(appts, id, row) <==> !Admits(appts, id, row)
  {
    if SlotTaken(appts, id, row) {
      var j :| j in appts && Meets(appts[j], j, row.tenant, row.starts, row.ends, Some(id))
               && (appts[j].employee == row.employee || (row.room.Some? && appts[j].room == row.room));
      assert Clash(row, appts[j]);
    }
    if !Admits(appts, id, row) {
      var j :| j in appts && j != id && Clash(row, appts[j]);
      assert Meets(appts[j], j, row.tenant, row.starts, row.ends, Some(id));
    }
  }

  /** Leaving out an id that has no row leaves out nothing. */
  lemma ExcludingAbsentRow(appts: Appts, id: Id, row: Appt)
    requires id !in appts
    ensures SlotTaken(appts, id, row) ==
              HasConflict(appts, row.tenant, row.employee, row.room, row.starts, row.ends, None)
  {
    forall j | j in appts
      ensures Meets(appts[j], j, row.tenant, row.starts, row.ends, Some(id)) ==
                Meets(appts[j], j, row.tenant, row.starts, row.ends, None)
    {
    }
  }

  /** Row j holds the employee or the room of this row version and their times cross, as the query compares them. */
  predicate Crossing(appts: Appts, id: Id, row: Appt, j: Id) {
    && j in appts && j != id
    && appts[j].tenant == row.tenant && Active(appts[j])
    && (appts[j].employee == row.employee || (row.room.Some? && appts[j].room == row.room))
    && appts[j].starts < row.ends && row.starts < appts[j].ends
  }

  /**
   Why lengths must be positive: without that the query still finds every row
   the constraints reject, and it errs, on the cautious side, exactly when all
   it finds are crossings in which one of the two ranges is empty.
   */
  lemma QueryErrsOnEmptyRangesOnly(appts: Appts, id: Id, row: Appt)
    requires Active(row)
    ensures !Admits(appts, id, row) ==> SlotTaken(appts, id, row)
    ensures SlotTaken(appts, id, row) && Admits(appts, id, row) <==>
              && (exists j :: Crossing(appts, id, row, j))
              && (forall j :: Crossing(appts, id, row, j) ==>
                   row.starts >= row.ends || appts[j].starts >= appts[j].ends)
  {
    forall j | j in appts && j != id
      ensures Clash(row, appts[j]) <==>
                Crossing(appts, id, row, j) && row.starts < row.ends && appts[j].starts < appts[j].ends
      ensures Crossing(appts, id, row, j) ==> Meets(appts[j], j, row.tenant, row.starts, row.ends, Some(id))
    {
    }
    if SlotTaken(appts, id, row) {
      var j :| j in appts && Meets(appts[j], j, row.tenant, row.starts, row.ends, Some(id))
               && (appts[j].employee == row.employee || (row.room.Some? && appts[j].room == row.room));
      assert Crossing(appts, id, row, j);
    }
  }
}
