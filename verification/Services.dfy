/**
 The service functions step by step on one session. They read through the
 session's view and change tables by staged writes only, so what they answer
 and what they commit depends on the tenant setting.
 */
module Services {
  import opened Calendar
  import opened Ledger
  import opened Sessions

  // ----- queries

  method GetAppointment(s: Session, t: Id, id: Id) returns (r: Option<Appt>)
    requires s.tenant.Some?
    ensures r == if s.Scoped(t) then FindAppt(s.work, t, id) else None
  {
    LookupsUnderPolicy(s.work, s.tenant.value, t, id);
    r := FindAppt(s.View(), t, id);
  }

  method LoadService(s: Session, t: Id, id: Id) returns (r: Option<Service>)
    requires s.tenant.Some?
    ensures r == if s.Scoped(t) then FindService(s.work, t, id) else None
  {
    LookupsUnderPolicy(s.work, s.tenant.value, t, id);
    r := FindService(s.View(), t, id);
  }

  method LoadPayment(s: Session, t: Id, id: Id) returns (r: Option<Payment>)
    requires s.tenant.Some?
    ensures r == if s.Scoped(t) then FindPayment(s.work, t, id) else None
  {
    LookupsUnderPolicy(s.work, s.tenant.value, t, id);
    r := FindPayment(s.View(), t, id);
  }

  /** The slot query: one statement for the employee, a second one for the room. */
  method CheckConflict(s: Session, t: Id, employee: Id, room: Option<Id>, starts: int, ends: int, exclude: Option<Id>)
    returns (taken: bool)
    requires s.tenant.Some?
    ensures taken <==> s.Scoped(t) && HasConflict(s.work.appts, t, employee, room, starts, ends, exclude)
  {
    SlotQueryUnderPolicy(s.work, s.tenant.value, t, employee, room, starts, ends, exclude);
    if EmployeeTaken(s.View().appts, t, employee, starts, ends, exclude) {
      return true;
    }
    if room.Some? {
      if RoomTaken(s.View().appts, t, room, starts, ends, exclude) {
        return true;
      }
    }
    return false;
  }

  method ClientExists(s: Session, t: Id, id: Id) returns (found: bool)
    requires s.tenant.Some?
    ensures found <==> s.Scoped(t) && HasClient(s.work, t, id)
  {
    ListsUnderPolicy(s.work, s.tenant.value, t, id);
    found := HasClient(s.View(), t, id);
  }

  method LoadEmployee(s: Session, t: Id, id: Id) returns (r: Option<Employee>)
    requires s.tenant.Some?
    ensures r == if s.Scoped(t) then FindEmployee(s.work, t, id) else None
  {
    LookupsUnderPolicy(s.work, s.tenant.value, t, id);
    r := FindEmployee(s.View(), t, id);
  }

  method RoomExists(s: Session, t: Id, id: Id) returns (found: bool)
    requires s.tenant.Some?
    ensures found <==> s.Scoped(t) && HasRoom(s.work, t, id)
  {
    ListsUnderPolicy(s.work, s.tenant.value, t, id);
    found := HasRoom(s.View(), t, id);
  }

  method IsReminded(s: Session, t: Id, id: Id, kind: Kind) returns (sent: bool)
    requires s.tenant.Some?
    ensures sent <==> s.Scoped(t) && AlreadySent(s.work.logs, t, id, kind)
  {
    SentUnderPolicy(s.work, s.tenant.value, t, id, kind);
    sent := AlreadySent(s.View().logs, t, id, kind);
  }

  /** The oldest waiting entry that fits a freed slot. */
  method FindOldestMatch(s: Session, t: Id, service: Id, employee: Id, slot: int) returns (r: Option<WaitEntry>)
    requires s.tenant.Some?
    ensures r == if s.Scoped(t)
              then Chosen(s.work.waitlist, OldestMatch(s.work.waitlist, t, service, employee, slot)) else None
  {
    OldestUnderPolicy(s.work.waitlist, s.tenant.value, t, service, employee, slot);
    var entries := s.View().waitlist;
    r := Chosen(entries, OldestMatch(entries, t, service, employee, slot));
  }

  method LoadEntry(s: Session, t: Id, id: Id) returns (r: Option<WaitEntry>)
    requires s.tenant.Some?
    ensures r == if s.Scoped(t) then Chosen(s.work.waitlist, PositionOf(s.work.waitlist, t, id)) else None
  {
    PositionUnderPolicy(s.work.waitlist, s.tenant.value, t, id);
    var entries := s.View().waitlist;
    r := Chosen(entries, PositionOf(entries, t, id));
  }

  /** Do client, employee and room of a new appointment exist? */
  method ReferencesExist(s: Session, t: Id, req: Request, room: Option<Id>) returns (found: bool)
    requires s.Scoped(t)
    ensures found <==>
              && HasClient(s.work, t, req.client) && FindEmployee(s.work, t, req.employee).Some?
              && (room.Some? ==> HasRoom(s.work, t, room.value))
  {
    found := ClientExists(s, t, req.client);
    if found {
      var employee := LoadEmployee(s, t, req.employee);
      found := employee.Some?;
    }
    if found && room.Some? {
      found := RoomExists(s, t, room.value);
    }
  }

  // ----- notifications and waitlist: nested steps that flush

  /** A reminder of this type was sent to the appointment before. */
  predicate Reminded(db: Db, t: Id, appointment: Option<Id>, kind: Kind) {
    Guarded(kind) && appointment.Some? && AlreadySent(db.logs, t, appointment.value, kind)
  }

  /** The message can be sent or not, and a log is only written if it was; a repeated reminder is not even tried. */
  method SendNotification(s: Session, t: Id, appointment: Option<Id>, client: Id, kind: Kind, down: set<Log>)
    returns (error: Option<Error>)
    requires s.Scoped(t) && s.pending == []
    modifies s`work, s`pending
    ensures if !Reminded(old(s.work), t, appointment, kind) && Log(t, appointment, client, kind) in down
            then error == Some(Unsent) && s.work == old(s.work)
            else error.None? && s.work == Send(old(s.work), t, appointment, client, kind)
    ensures s.pending == []
  {
    if Guarded(kind) && appointment.Some? {
      var sent := IsReminded(s, t, appointment.value, kind);
      if sent {
        return None;
      }
    }
    var log := Log(t, appointment, client, kind);
    if log in down {
      return Some(Unsent);
    }
    FlushOne(s.work, AddLog(log));
    s.Stage(AddLog(log));
    var flushed := s.Flush();
    return None;
  }

  method PromoteNextMatch(s: Session, t: Id, freed: Appt, down: set<Log>) returns (error: Option<Error>)
    requires s.Scoped(t) && s.pending == [] && DistinctEntries(s.work.waitlist)
    modifies s`work, s`pending
    ensures var k := NextInLine(old(s.work), t, freed);
            if k.Some? && Log(t, None, old(s.work).waitlist[k.value].client, WaitlistPromotion) in down
                then error == Some(Unsent)
            else error.None? && s.work == Promote(old(s.work), t, freed)
    ensures s.pending == []
  {
    ghost var db := s.work;
    ghost var place := NextInLine(db, t, freed);
    var entry := FindOldestMatch(s, t, freed.service, freed.employee, freed.starts);
    if entry.None? {
      return None;
    }
    var w := PutEntry(entry.value.(status := Promoted), false);
    KeyFindsEntry(db.waitlist, place.value);
    FlushOne(db, w);
    s.Stage(w);
    var flushed := s.Flush();
    error := SendNotification(s, t, None, entry.value.client, WaitlistPromotion, down);
  }

  method Join(s: Session, t: Id, entry: WaitEntry) returns (error: Option<Error>)
    requires s.Scoped(t) && s.pending == [] && entry.tenant == t
    modifies s
    ensures error == JoinWaitlist(old(s.work), entry).error
    ensures s.Ended(JoinWaitlist(old(s.work), entry), old(s.store))
  {
    var w := PutEntry(entry.(status := Waiting), true);
    FlushOne(s.work, w);
    s.Stage(w);
    var ok := s.Commit();
    return if ok then None else Some(Integrity);
  }

  method CancelEntry(s: Session, t: Id, id: Id) returns (error: Option<Error>)
    requires s.Scoped(t) && s.pending == []
    modifies s
    ensures error == LeaveWaitlist(old(s.work), t, id).error
    ensures s.Ended(LeaveWaitlist(old(s.work), t, id), old(s.store))
  {
    var entry := LoadEntry(s, t, id);
    if entry.None? {
      return Some(NotFound);
    }
    var w := PutEntry(entry.value.(status := Withdrawn), false);
    FlushOne(s.work, w);
    s.Stage(w);
    var ok := s.Commit();
    return None;
  }

  // ----- appointments

  /** The one message of an outcome decides whether it goes through. */
  lemma DeliveredOne(db: Db, out: Outcome, log: Log, down: set<Log>)
    requires out.error.None? && out.db.logs == db.logs + multiset{log}
    ensures Delivered(db, out, down) == if log in down then Fail(db, Unsent) else out
  {
    assert out.db.logs[log] > db.logs[log];
  }

  lemma NothingSent(db: Db, out: Outcome, down: set<Log>)
    requires out.error.Some? || out.db.logs == db.logs
    ensures Delivered(db, out, down) == out
  {
  }

  /** A create, all its messages considered. */
  function Creation(db: Db, t: Id, id: Id, req: Request, down: set<Log>): Outcome {
    Delivered(db, CreateAppointment(db, t, id, req), down)
  }

  lemma CreationWrites(db: Db, t: Id, id: Id, req: Request, row: Appt, down: set<Log>)
    requires CreateAppointment(db, t, id, req) == Done(Insert(db, id, row)) && row.tenant == t
    ensures var log := Log(t, Some(id), row.client, Confirmation);
            Creation(db, t, id, req, down) ==
              if row.status == Confirmed && log in down then Fail(db, Unsent) else Done(Insert(db, id, row))
  {
    if row.status == Confirmed {
      DeliveredOne(db, Done(Insert(db, id, row)), Log(t, Some(id), row.client, Confirmation), down);
    } else {
      NothingSent(db, Done(Insert(db, id, row)), down);
    }
  }

  method Create(s: Session, t: Id, id: Id, req: Request, down: set<Log>) returns (error: Option<Error>)
    requires s.Scoped(t) && s.pending == []
    modifies s
    ensures error == Creation(old(s.work), t, id, req, down).error
    ensures s.Ended(Creation(old(s.work), t, id, req, down), old(s.store))
  {
    var service := LoadService(s, t, req.service);
    if service.None? {
      return Some(NotFound);
    }
    var ends := req.starts + service.value.duration;
    var room := if service.value.requiresRoom then req.room else None;
    var found := ReferencesExist(s, t, req, room);
    if !found {
      return Some(NotFound);
    }
    var taken := CheckConflict(s, t, req.employee, room, req.starts, ends, None);
    if taken {
      return Some(Conflict);
    }
    var status := if req.source == Staff then Confirmed else Pending;
    var row := Appt(t, req.client, req.employee, req.service, room, req.starts, ends, status, req.source, false);
    error := InsertRow(s, t, id, row, down);
    assert row == NewRow(t, req, service.value);
    if error != Some(Conflict) {
      CreationWrites(old(s.work), t, id, req, row, down);
    }
  }

  /** The last steps of a create: the flush, the confirmation of a staff booking, the commit. */
  method InsertRow(s: Session, t: Id, id: Id, row: Appt, down: set<Log>) returns (error: Option<Error>)
    requires s.Scoped(t) && s.pending == [] && row.tenant == t
    modifies s
    ensures var lost := row.status == Confirmed && Log(t, Some(id), row.client, Confirmation) in down;
            var free := id !in old(s.work).appts && Admits(old(s.work).appts, id, row);
            && error == (if !free then Some(Conflict) else if lost then Some(Unsent) else None)
            && if free && !lost then s.Committed(Insert(old(s.work), id, row)) && s.tenant.None?
                 else s.store == old(s.store)
  {
    var w := PutAppt(id, row, true, Some(Entry(id, None, row.status)));
    FlushOne(s.work, w);
    s.Stage(w);
    var ok := s.FlushOrRollback();
    if !ok {
      return Some(Conflict);
    }
    if row.status == Confirmed {
      error := SendAndCommit(s, t, id, row.client, Confirmation, down);
    } else {
      ok := s.Commit();
      error := None;
    }
  }

  /**
   What a transition may find in memory: nothing, a change of the loaded row, or
   a payment record. Its flush writes the row with its new status, and the
   record before it.
   */
  predicate Carries(s: Session, t: Id, id: Id, loaded: Appt, base: Db)
    reads s
  {
    CarriesRecord(s, t, base) || (s.pending == [PutAppt(id, loaded, false, None)] && base == s.work)
  }

  /** base: the tables with a payment record that is only in memory yet, if there is one. */
  predicate CarriesRecord(s: Session, t: Id, base: Db)
    reads s
  {
    || (s.pending == [] && base == s.work)
    || (|s.pending| == 1 && s.pending[0].PutPayment? && !s.pending[0].isNew && Owner(s.pending[0]) == t
        && base == s.work.(payments := s.work.payments[s.pending[0].id := s.pending[0].record]))
  }

  lemma CarriedFlush(s: Session, t: Id, id: Id, loaded: Appt, base: Db, w: Write)
    requires Carries(s, t, id, loaded, base) && w.PutAppt?
    ensures var rest := if s.pending != [] && s.pending[0].PutAppt? then [] else s.pending;
            Flushed(s.work, rest + [w]) == if Accepts(base, w) then Some(Written(base, w)) else None
  {
    if s.pending == [] || s.pending[0].PutAppt? {
      assert [] + [w] == [w];
      FlushOne(s.work, w);
    } else {
      assert s.pending + [w] == [s.pending[0], w];
      FlushTwo(s.work, s.pending[0], w);
    }
  }

  /** Moves a loaded row to another status. The row may carry changes that are only in memory. */
  method MoveStatus(s: Session, t: Id, id: Id, loaded: Appt, to: Status, ghost base: Db) returns (error: Option<Error>)
    requires s.Scoped(t) && Carries(s, t, id, loaded, base) && FindAppt(base, t, id).Some?
    requires loaded == base.appts[id].(noShow := loaded.noShow) && (base.appts[id].noShow ==> loaded.noShow)
    modifies s`work, s`pending
    ensures error == Transition(base, t, id, to, loaded.noShow).error
    ensures error.None? ==> s.work == Transition(base, t, id, to, loaded.noShow).db && s.pending == []
  {
    if !Allowed(loaded.status, to) {
      return Some(Conflict);
    }
    var w := PutAppt(id, loaded.(status := to), false, Some(Entry(id, Some(loaded.status), to)));
    CarriedFlush(s, t, id, loaded, base, w);
    if s.pending != [] && s.pending[0].PutAppt? {
      s.pending := [];
    }
    s.Stage(w);
    var ok := s.Flush();
    return if ok then None else Some(Integrity);
  }

  function Confirming(db: Db, t: Id, id: Id, down: set<Log>): Outcome {
    Delivered(db, Confirm(db, t, id), down)
  }

  lemma ConfirmingSends(db: Db, t: Id, id: Id, down: set<Log>)
    requires Transition(db, t, id, Confirmed, false).error.None?
    ensures id in db.appts
    ensures Confirming(db, t, id, down) ==
              if Log(t, Some(id), db.appts[id].client, Confirmation) in down then Fail(db, Unsent)
                  else Confirm(db, t, id)
  {
    DeliveredOne(db, Confirm(db, t, id), Log(t, Some(id), db.appts[id].client, Confirmation), down);
  }

  method ConfirmAppointment(s: Session, t: Id, id: Id, down: set<Log>, ghost base: Db) returns (error: Option<Error>)
    requires s.Scoped(t) && CarriesRecord(s, t, base)
    modifies s
    ensures error == Confirming(base, t, id, down).error
    ensures if error.None? then s.Committed(Confirm(base, t, id).db) && s.tenant.None? else s.store == old(s.store)
  {
    var row := GetAppointment(s, t, id);
    assert row == FindAppt(base, t, id);
    if row.None? {
      return Some(NotFound);
    }
    error := MoveStatus(s, t, id, row.value, Confirmed, base);
    if error.Some? {
      return;
    }
    ConfirmingSends(base, t, id, down);
    error := SendAndCommit(s, t, id, row.value.client, Confirmation, down);
  }

  /** The last steps of a change: its message and the commit. */
  method SendAndCommit(s: Session, t: Id, id: Id, client: Id, kind: Kind, down: set<Log>) returns (error: Option<Error>)
    requires s.Scoped(t) && s.pending == [] && !Guarded(kind)
    modifies s
    ensures error == if Log(t, Some(id), client, kind) in down then Some(Unsent) else None
    ensures if error.None? then s.Committed(Send(old(s.work), t, Some(id), client, kind)) && s.tenant.None?
              else s.store == old(s.store)
  {
    error := SendNotification(s, t, Some(id), client, kind, down);
    if error.None? {
      var ok := s.Commit();
    }
  }

  method CompleteAppointment(s: Session, t: Id, id: Id) returns (error: Option<Error>)
    requires s.Scoped(t) && s.pending == []
    modifies s
    ensures error == Complete(old(s.work), t, id).error
    ensures s.Ended(Complete(old(s.work), t, id), old(s.store))
  {
    var row := GetAppointment(s, t, id);
    if row.None? {
      return Some(NotFound);
    }
    error := MoveStatus(s, t, id, row.value, Completed, s.work);
    if error.None? {
      var ok := s.Commit();
    }
  }

  function Cancelling(db: Db, t: Id, id: Id, noShow: bool, down: set<Log>): Outcome {
    Delivered(db, Cancel(db, t, id, noShow), down)
  }

  /** Some message of a cancellation cannot be sent: its own, or the one to the client promoted. */
  predicate OfferLost(moved: Db, t: Id, id: Id, row: Appt, down: set<Log>) {
    var k := NextInLine(moved, t, row);
    || Log(t, Some(id), row.client, Cancellation) in down
    || (k.Some? && Log(t, None, moved.waitlist[k.value].client, WaitlistPromotion) in down)
  }

  function Announced(moved: Db, t: Id, id: Id, row: Appt): Db {
    Promote(Send(moved, t, Some(id), row.client, Cancellation), t, row)
  }

  lemma CancellingSends(db: Db, t: Id, id: Id, noShow: bool, moved: Db, row: Appt, down: set<Log>)
    requires Transition(db, t, id, Cancelled, noShow) == Done(moved) && FindAppt(moved, t, id) == Some(row)
    ensures Cancelling(db, t, id, noShow, down) == if OfferLost(moved, t, id, row, down) then Fail(db, Unsent)
              else Done(Announced(moved, t, id, row))
  {
    var own := Log(t, Some(id), row.client, Cancellation);
    var after := Announced(moved, t, id, row);
    assert Cancel(db, t, id, noShow) == Done(after);
    assert moved.logs == db.logs;
    var k := NextInLine(moved, t, row);
    if k.Some? {
      TwoSent(db, after, own, Log(t, None, moved.waitlist[k.value].client, WaitlistPromotion), down);
    } else {
      DeliveredOne(db, Done(after), own, down);
    }
  }

  /** The last steps of a cancellation: its notification, the promotion, the commit. */
  method AnnounceCancellation(s: Session, t: Id, id: Id, row: Appt, down: set<Log>) returns (error: Option<Error>)
    requires s.Scoped(t) && s.pending == [] && DistinctEntries(s.work.waitlist)
    modifies s
    ensures error == if OfferLost(old(s.work), t, id, row, down) then Some(Unsent) else None
    ensures if error.None? then s.Committed(Announced(old(s.work), t, id, row)) && s.tenant.None?
              else s.store == old(s.store)
  {
    error := SendNotification(s, t, Some(id), row.client, Cancellation, down);
    if error.Some? {
      return;
    }
    error := PromoteNextMatch(s, t, row, down);
    if error.Some? {
      return;
    }
    var ok := s.Commit();
  }

  lemma TwoSent(db: Db, after: Db, a: Log, b: Log, down: set<Log>)
    requires after.logs == db.logs + multiset{a} + multiset{b}
    ensures Undelivered(db, after, down) <==> a in down || b in down
  {
    assert after.logs[a] > db.logs[a] && after.logs[b] > db.logs[b];
  }

  /** The no-show flag is set in memory before the status test, which may still refuse the call. */
  method CancelAppointment(s: Session, t: Id, id: Id, noShow: bool, down: set<Log>) returns (error: Option<Error>)
    requires s.Scoped(t) && s.pending == [] && DistinctEntries(s.work.waitlist)
    modifies s
    ensures error == Cancelling(old(s.work), t, id, noShow, down).error
    ensures s.Ended(Cancelling(old(s.work), t, id, noShow, down), old(s.store))
  {
    ghost var db := s.work;
    var found := GetAppointment(s, t, id);
    if found.None? {
      return Some(NotFound);
    }
    var row := found.value;
    if noShow {
      row := row.(noShow := true);
      s.Stage(PutAppt(id, row, false, None));
      assert s.pending == [PutAppt(id, row, false, None)];
    }
    error := MoveStatus(s, t, id, row, Cancelled, db);
    if error.Some? {
      return;
    }
    assert Transition(db, t, id, Cancelled, row.noShow) == Transition(db, t, id, Cancelled, noShow);
    var current := GetAppointment(s, t, id);
    CancellingSends(db, t, id, noShow, s.work, current.value, down);
    error := AnnounceCancellation(s, t, id, current.value, down);
  }

  /** A write of new times: refused for the slot, lost with its message, or done. */
  function Moved(db: Db, t: Id, id: Id, row: Appt, down: set<Log>): Outcome {
    if SlotTaken(db.appts, id, row) || !Admits(db.appts, id, row) then Fail(db, Conflict)
    else if Log(t, Some(id), row.client, Reschedule) in down then Fail(db, Unsent)
    else Done(Send(db.(appts := db.appts[id := row]), t, Some(id), row.client, Reschedule))
  }

  /** A reschedule, its message considered. */
  function Moving(db: Db, t: Id, id: Id, starts: int, down: set<Log>): Outcome {
    var found := FindAppt(db, t, id);
    if found.None? then Fail(db, NotFound)
    else if found.value.status == Cancelled || found.value.status == Completed then Fail(db, Conflict)
    else
      var service := FindService(db, t, found.value.service);
      if service.None? then Fail(db, NotFound)
      else Moved(db, t, id, found.value.(starts := starts, ends := starts + service.value.duration), down)
  }

  lemma MovingIsDelivered(db: Db, t: Id, id: Id, starts: int, down: set<Log>)
    ensures Moving(db, t, id, starts, down) == Delivered(db, RescheduleTo(db, t, id, starts), down)
  {
    var out := RescheduleTo(db, t, id, starts);
    if out.error.None? {
      DeliveredOne(db, out, Log(t, Some(id), db.appts[id].client, Reschedule), down);
    }
  }

  method RescheduleAppointment(s: Session, t: Id, id: Id, starts: int, down: set<Log>) returns (error: Option<Error>)
    requires s.Scoped(t) && s.pending == []
    modifies s
    ensures error == Moving(old(s.work), t, id, starts, down).error
    ensures s.Ended(Moving(old(s.work), t, id, starts, down), old(s.store))
  {
    var found := GetAppointment(s, t, id);
    if found.None? {
      return Some(NotFound);
    }
    var row := found.value;
    if row.status == Cancelled || row.status == Completed {
      return Some(Conflict);
    }
    var service := LoadService(s, t, row.service);
    if service.None? {
      return Some(NotFound);
    }
    var moved := row.(starts := starts, ends := starts + service.value.duration);
    assert Moving(s.work, t, id, starts, down) == Moved(s.work, t, id, moved, down);
    error := MoveRow(s, t, id, moved, down);
  }

  /** The slot query, the flush, the notification and the commit of a reschedule. */
  method MoveRow(s: Session, t: Id, id: Id, row: Appt, down: set<Log>) returns (error: Option<Error>)
    requires s.Scoped(t) && s.pending == [] && row.tenant == t && id in s.work.appts
    modifies s
    ensures error == Moved(old(s.work), t, id, row, down).error
    ensures s.Ended(Moved(old(s.work), t, id, row, down), old(s.store))
  {
    var taken := CheckConflict(s, t, row.employee, row.room, row.starts, row.ends, Some(id));
    if taken {
      return Some(Conflict);
    }
    var w := PutAppt(id, row, false, None);
    FlushOne(s.work, w);
    s.Stage(w);
    var ok := s.FlushOrRollback();
    if !ok {
      return Some(Conflict);
    }
    assert s.work == old(s.work).(appts := old(s.work).appts[id := row]);
    error := SendAndCommit(s, t, id, row.client, Reschedule, down);
  }
}
