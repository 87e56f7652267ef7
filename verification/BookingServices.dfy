/**
 Payments, public booking and the reminder worker on one session. Each of
 these chains several commits, and each commit drops the tenant setting.
 */
module BookingServices {
  import opened Calendar
  import opened Ledger
  import opened Sessions
  import opened Services
  import opened References
  import opened Invariant
  import Runs
  import PaymentRuns
  import Failures
  import Reminders

  // ----- payments

  /** A charge, its message considered. */
  function ChargingOf(db: Db, t: Id, appt: Id, id: Id, charge: Option<ChargeStatus>, down: set<Log>): Outcome {
    Delivered(db, CreateDepositCharge(db, t, appt, id, charge), down)
  }

  /** Writing a settled record, its message considered. */
  function Settling(db: Db, t: Id, id: Id, record: Payment, down: set<Log>): Outcome {
    Delivered(db, Settle(db, t, id, record), down)
  }

  lemma ChargeFails(db: Db, t: Id, appt: Id, id: Id, charge: Option<ChargeStatus>, down: set<Log>)
    requires CreateDepositCharge(db, t, appt, id, charge).error.Some?
    ensures ChargingOf(db, t, appt, id, charge, down) == CreateDepositCharge(db, t, appt, id, charge)
  {
  }

  /** The loaded row of a charge decides how its record is settled. */
  lemma SettlingByStatus(db: Db, t: Id, id: Id, record: Payment, down: set<Log>)
    requires FindAppt(db, t, record.appt).Some?
    ensures var written := db.(payments := db.payments[id := record]);
            if record.status == Approved && db.appts[record.appt].status == Pending then
              && Settling(db, t, id, record, down).error == Confirming(written, t, record.appt, down).error
              && (Settling(db, t, id, record, down).error.None? ==>
                    Settling(db, t, id, record, down).db == Confirm(written, t, record.appt).db)
            else Settling(db, t, id, record, down) == Done(written)
  {
    var written := db.(payments := db.payments[id := record]);
    if record.status == Approved && db.appts[record.appt].status == Pending {
      SameMessages(db, written, Confirm(written, t, record.appt), down);
    } else {
      NothingSent(db, Done(written), down);
    }
  }

  /** Which messages fail does not depend on payment records. */
  lemma SameMessages(db: Db, written: Db, out: Outcome, down: set<Log>)
    requires written.logs == db.logs
    ensures Undelivered(db, out.db, down) <==> Undelivered(written, out.db, down)
  {
  }

  /** Records a new charge in the database and asks the provider; a failing provider ends the call. */
  method RecordCharge(s: Session, t: Id, appt: Id, id: Id, service: Service, charge: Option<ChargeStatus>)
    returns (error: Option<Error>)
    requires s.Scoped(t) && s.pending == []
    requires service.depositType.Some? && service.depositValue.Some?
    modifies s`work, s`pending
    ensures error == if id in old(s.work).payments then Some(Integrity) else if charge.None? then Some(Provider)
              else None
    ensures error.None? ==>
              && s.work == old(s.work).(payments := old(s.work).payments[id := ChargeRecord(t, appt, service, Unpaid)])
              && s.pending == [PutPayment(id, ChargeRecord(t, appt, service, StatusOf(charge.value)), false)]
  {
    var w := PutPayment(id, ChargeRecord(t, appt, service, Unpaid), true);
    FlushOne(s.work, w);
    s.Stage(w);
    var ok := s.Flush();
    if !ok {
      return Some(Integrity);
    }
    if charge.None? {
      return Some(Provider);
    }
    s.Stage(PutPayment(id, ChargeRecord(t, appt, service, StatusOf(charge.value)), false));
    return None;
  }

  /** After a nested confirmation has committed, nothing is left for the last commit to flush. */
  method FinishCharge(s: Session, t: Id, id: Id, record: Payment, loaded: Appt, down: set<Log>, ghost db: Db)
    returns (error: Option<Error>)
    requires s.Scoped(t) && FindAppt(db, t, record.appt) == Some(loaded) && record.tenant == t
    requires s.pending == [PutPayment(id, record, false)] && s.work == db.(payments := s.work.payments)
    requires s.work.payments[id := record] == db.payments[id := record]
    modifies s
    ensures error == Settling(db, t, id, record, down).error
    ensures if error.None? then s.Committed(Settling(db, t, id, record, down).db) && s.tenant.None?
              else s.store == old(s.store)
  {
    ghost var written := db.(payments := db.payments[id := record]);
    SettlingByStatus(db, t, id, record, down);
    FlushOne(s.work, s.pending[0]);
    if record.status == Approved && loaded.status == Pending {
      error := ConfirmAppointment(s, t, record.appt, down, written);
      if error.Some? {
        return;
      }
    }
    var ok := s.Commit();
    return None;
  }

  method ChargeDeposit(s: Session, t: Id, appt: Id, id: Id, charge: Option<ChargeStatus>, down: set<Log>)
    returns (error: Option<Error>)
    requires s.Scoped(t) && s.pending == []
    modifies s
    ensures error == ChargingOf(old(s.work), t, appt, id, charge, down).error
    ensures s.Ended(ChargingOf(old(s.work), t, appt, id, charge, down), old(s.store))
  {
    ghost var db := s.work;
    if CreateDepositCharge(db, t, appt, id, charge).error.Some? { ChargeFails(db, t, appt, id, charge, down); }
    var found := GetAppointment(s, t, appt);
    if found.None? {
      return Some(NotFound);
    }
    var loaded := LoadService(s, t, found.value.service);
    if loaded.None? {
      return Some(Integrity);
    }
    var service := loaded.value;
    if !service.depositRequired || service.depositType.None? {
      return Some(Invalid);
    }
    if service.depositValue.None? {
      return Some(Integrity);
    }
    error := RecordCharge(s, t, appt, id, service, charge);
    if error.Some? {
      return;
    }
    var record := ChargeRecord(t, appt, service, StatusOf(charge.value));
    assert CreateDepositCharge(db, t, appt, id, charge) == Settle(db, t, id, record);
    assert s.work.payments[id := record] == db.payments[id := record];
    error := FinishCharge(s, t, id, record, found.value, down, db);
  }

  /** Writes a status to a loaded record; an approval also confirms a pending appointment, and that commits. */
  method ApplyAndMaybeConfirm(s: Session, t: Id, id: Id, record: Payment, status: PaymentStatus, down: set<Log>)
    returns (error: Option<Error>)
    requires s.Scoped(t) && s.pending == [] && FindPayment(s.work, t, id) == Some(record)
    modifies s
    ensures var out :=
              Settling(old(s.work), t, id, record.(status := status, paid := record.paid || status == Approved), down);
            && error == out.error
            && (error.None? ==> s.work == out.db && s.pending == [])
            && (error.Some? ==> s.store == old(s.store))
  {
    ghost var db := s.work;
    var settled := record.(status := status, paid := record.paid || status == Approved);
    var w := PutPayment(id, settled, false);
    FlushOne(s.work, w);
    s.Stage(w);
    var flushed := s.Flush();
    if status == Approved {
      var found := GetAppointment(s, t, record.appt);
      if found.None? {
        return Some(NotFound);
      }
      SettlingByStatus(db, t, id, settled, down);
      if found.value.status == Pending {
        error := ConfirmAppointment(s, t, record.appt, down, s.work);
        return;
      }
    } else {
      NothingSent(db, Settle(db, t, id, settled), down);
    }
    return None;
  }

  function Polling(db: Db, t: Id, id: Id, charge: Option<ChargeStatus>, down: set<Log>): Outcome {
    Delivered(db, RefreshPayment(db, t, id, charge), down)
  }

  method RefreshStatus(s: Session, t: Id, id: Id, charge: Option<ChargeStatus>, down: set<Log>)
    returns (error: Option<Error>)
    requires s.Scoped(t) && s.Committed(s.work)
    modifies s
    ensures error == Polling(old(s.work), t, id, charge, down).error
    ensures s.store == Polling(old(s.work), t, id, charge, down).db
    ensures error.None? ==> s.Committed(s.store)
  {
    ghost var db := s.work;
    var found := LoadPayment(s, t, id);
    if found.None? {
      return Some(Invalid);
    }
    var record := found.value;
    if record.status != Unpaid || !record.hasReference {
      NothingSent(db, Done(db), down);
      return None;
    }
    if charge.None? {
      return Some(Provider);
    }
    var status := StatusOf(charge.value);
    assert RefreshPayment(db, t, id, charge) ==
        Settle(db, t, id, record.(status := status, paid := record.paid || status == Approved));
    error := ApplyAndMaybeConfirm(s, t, id, record, status, down);
    if error.None? {
      var ok := s.Commit();
    }
  }

  /** The webhook opens its own session for the tenant it reads out of the reference. */
  method HandleWebhook(db: Db, reference: string, charge: ChargeStatus, down: set<Log>)
    returns (after: Db, error: Option<Error>)
    ensures Outcome(after, error) == Delivered(db, Webhook(db, reference, charge), down)
  {
    var parsed := ParseReference(reference);
    if parsed.None? {
      NothingSent(db, Done(db), down);
      return db, None;
    }
    var (t, id) := parsed.value;
    var s := new Session(db);
    s.SetTenantContext(t);
    var found := LoadPayment(s, t, id);
    if found.None? {
      NothingSent(db, Done(db), down);
      return db, None;
    }
    var record, status := found.value, StatusOf(charge);
    assert Webhook(db, reference, charge) ==
        Settle(db, t, id, record.(status := status, paid := record.paid || status == Approved));
    error := ApplyAndMaybeConfirm(s, t, id, record, status, down);
    if error.None? {
      var ok := s.Commit();
    }
    after := s.store;
  }

  // ----- public booking

  /** The rooms a repository of t lists. */
  method ListRooms(s: Session, t: Id) returns (rooms: seq<Room>)
    requires s.tenant.Some?
    ensures rooms == Own(s.work.catalog.rooms, RoomOwner, s.tenant.value)
  {
    rooms := s.View().catalog.rooms;
  }

  /** Is the employee free, and which room would be used? Rooms are tried in table order. */
  method CheckCapacity(s: Session, t: Id, employee: Id, service: Service, starts: int, ends: int)
    returns (free: bool, room: Option<Id>)
    requires s.Scoped(t)
    ensures (free, room) == Capacity(s.work, t, employee, service, starts, ends)
  {
    var busy := CheckConflict(s, t, employee, None, starts, ends, None);
    if busy {
      return false, None;
    }
    if !service.requiresRoom {
      return true, None;
    }
    OwnFirstFreeRoom(s.work, s.work.catalog.rooms, t, employee, starts, ends);
    var rooms := ListRooms(s, t);
    room := PickRoom(s, t, rooms, employee, starts, ends);
    return room.Some?, room;
  }

  /** The loop over the rooms. */
  method PickRoom(s: Session, t: Id, rooms: seq<Room>, employee: Id, starts: int, ends: int) returns (room: Option<Id>)
    requires s.Scoped(t)
    ensures room == FirstFreeRoom(s.work, rooms, t, employee, starts, ends)
  {
    for i := 0 to |rooms|
      invariant FirstFreeRoom(s.work, rooms[..i], t, employee, starts, ends) == None
    {
      OneMoreRoom(s.work, rooms, i, t, employee, starts, ends);
      if rooms[i].tenant == t && rooms[i].active {
        var taken := CheckConflict(s, t, employee, Some(rooms[i].id), starts, ends, None);
        if !taken {
          FirstFreeStays(s.work, rooms, i + 1, t, employee, starts, ends);
          return Some(rooms[i].id);
        }
      }
    }
    assert rooms[..|rooms|] == rooms;
    return None;
  }

  lemma OneMoreRoom(db: Db, rooms: seq<Room>, i: nat, t: Id, employee: Id, starts: int, ends: int)
    requires i < |rooms| && FirstFreeRoom(db, rooms[..i], t, employee, starts, ends).None?
    ensures FirstFreeRoom(db, rooms[..i + 1], t, employee, starts, ends) ==
              if RoomFree(db, rooms[i], t, employee, starts, ends) then Some(rooms[i].id) else None
  {
    assert rooms[..i + 1][..i] == rooms[..i];
  }

  /** The first free room of a prefix is the first free room of all. */
  lemma {:induction false} FirstFreeStays(db: Db, rooms: seq<Room>, n: nat, t: Id, employee: Id, starts: int, ends: int)
    requires n <= |rooms| && FirstFreeRoom(db, rooms[..n], t, employee, starts, ends).Some?
    ensures FirstFreeRoom(db, rooms, t, employee, starts, ends) ==
              FirstFreeRoom(db, rooms[..n], t, employee, starts, ends)
    decreases |rooms|
  {
    if n == |rooms| {
      assert rooms[..n] == rooms;
    } else {
      var shorter := rooms[..|rooms| - 1];
      assert shorter[..n] == rooms[..n];
      FirstFreeStays(db, shorter, n, t, employee, starts, ends);
    }
  }

  method FindByPhone(s: Session, t: Id, phone: string) returns (r: Option<Id>)
    requires s.tenant.Some?
    ensures r == if s.Scoped(t) then ClientByPhone(s.work.clients, t, phone) else None
  {
    ClientUnderPolicy(s.work.clients, s.tenant.value, t, phone);
    r := ClientByPhone(s.View().clients, t, phone);
  }

  /** Finds the client by phone, or adds one in the open transaction. */
  method FindOrAddClient(s: Session, t: Id, phone: string, newId: Id) returns (client: Id, error: Option<Error>)
    requires s.Scoped(t) && s.pending == []
    modifies s`work, s`pending
    ensures error == FindOrCreateClient(old(s.work), t, phone, newId).error
    ensures error.None? ==> s.work == FindOrCreateClient(old(s.work), t, phone, newId).db && s.pending == []
    ensures error.None? ==> client == ClientFor(old(s.work), t, phone, newId)
  {
    var existing := FindByPhone(s, t, phone);
    if existing.Some? {
      return existing.value, None;
    }
    var w := AddClient(Ledger.Client(newId, t, phone));
    FlushOne(s.work, w);
    s.Stage(w);
    var ok := s.Flush();
    return newId, if ok then None else Some(Integrity);
  }

  /** The company and the service of a booking, None if it asks for something that cannot be booked. */
  method LoadBookable(s: Session, t: Id, serviceId: Id, employee: Id) returns (r: Option<(Company, Service, Employee)>)
    requires s.Scoped(t)
    ensures r.Some? <==> t in s.work.catalog.companies && Bookable(s.work, t, serviceId, employee)
    ensures r.Some? ==>
              r.value == (s.work.catalog.companies[t], s.work.catalog.services[serviceId],
                  s.work.catalog.employees[employee])
  {
    var companies := s.View().catalog.companies;
    if t !in companies {
      return None;
    }
    var service := LoadService(s, t, serviceId);
    if service.None? || !service.value.active {
      return None;
    }
    var found := LoadEmployee(s, t, employee);
    if found.None? || !found.value.active || serviceId !in found.value.offers {
      return None;
    }
    return Some((companies[t], service.value, found.value));
  }

  /** A public booking sends nothing when it is placed. */
  lemma PlacementCreates(db: Db, t: Id, id: Id, req: Request)
    requires req.source == PublicBooking
    ensures Creation(db, t, id, req, {}) == CreateAppointment(db, t, id, req)
  {
  }

  method PlaceBookingOn(s: Session, t: Id, req: BookingRequest)
    returns (error: Option<Error>, found: Option<(Company, Service, Employee)>)
    requires s.Scoped(t) && s.pending == []
    modifies s
    ensures error == PlaceBooking(old(s.work), t, req).error
    ensures s.Ended(PlaceBooking(old(s.work), t, req), old(s.store))
    ensures error.None? ==>
              found.Some? && t in old(s.work).catalog.companies && req.service in old(s.work).catalog.services
              && found.value.0 == old(s.work).catalog.companies[t] &&
                   found.value.1 == old(s.work).catalog.services[req.service]
  {
    found := LoadBookable(s, t, req.service, req.employee);
    if found.None? {
      return Some(NotFound), None;
    }
    var service := found.value.1;
    var free, room := CheckCapacity(s, t, req.employee, service, req.starts, req.starts + service.duration);
    if !free {
      return Some(Conflict), None;
    }
    var client;
    client, error := FindOrAddClient(s, t, req.phone, req.newClient);
    if error.Some? {
      return;
    }
    var request := Request(client, req.employee, req.service, req.starts, room, PublicBooking);
    assert request == BookedRequest(old(s.work), t, req);
    PlacementCreates(s.work, t, req.appt, request);
    error := Create(s, t, req.appt, request, {});
  }

  /** The payments of one appointment. */
  function PaymentsOf(db: Db, t: Id, appt: Id): set<Id> {
    set id | id in db.payments && db.payments[id].tenant == t && db.payments[id].appt == appt
  }

  method ListPayments(s: Session, t: Id, appt: Id) returns (payments: set<Id>)
    requires s.tenant.Some?
    ensures payments == if s.Scoped(t) then PaymentsOf(s.work, t, appt) else {}
  {
    payments := PaymentsOf(s.View(), t, appt);
  }

  /** Reads an appointment's state and polls one of its payments, if it has any. */
  method GetBookingStatus(s: Session, t: Id, appt: Id, net: Answers)
    returns (polled: Option<Id>, status: Option<Status>, error: Option<Error>)
    requires s.Scoped(t) && s.Committed(s.work)
    modifies s
    ensures polled.Some? ==> polled.value in PaymentsOf(old(s.work), t, appt)
    ensures polled.None? ==> PaymentsOf(old(s.work), t, appt) == {} || FindAppt(old(s.work), t, appt).None?
    ensures error == ReadStatus(old(s.work), t, appt, polled, net).error
    ensures s.store == ReadStatus(old(s.work), t, appt, polled, net).db
    ensures error.None? ==> s.Committed(s.store) && s.Scoped(t)
    ensures error.None? ==> status == if FindAppt(s.store, t, appt).Some? then Some(s.store.appts[appt].status)
              else None
  {
    var found := GetAppointment(s, t, appt);
    if found.None? {
      return None, None, Some(NotFound);
    }
    var payments := ListPayments(s, t, appt);
    if payments == {} {
      return None, Some(found.value.status), None;
    }
    var id :| id in payments;
    polled, status := Some(id), None;
    error := RefreshStatus(s, t, id, net.poll, net.down);
    if error.None? {
      s.SetTenantContext(t);
      found := GetAppointment(s, t, appt);
      if found.Some? { status := Some(found.value.status); }
    }
  }

  /**
   The second unit of a booking: a charge, the automatic confirmation, or nothing;
   the setting is in force again after it.
   */
  method FollowUpOn(s: Session, t: Id, req: BookingRequest, company: Company, service: Service, net: Answers)
    returns (error: Option<Error>)
    requires s.Scoped(t) && s.Committed(s.work)
    modifies s
    ensures error == FollowUp(old(s.work), t, service, company, req, net).error
    ensures s.store == FollowUp(old(s.work), t, service, company, req, net).db
    ensures error.None? ==> s.Scoped(t) && s.Committed(s.store)
  {
    if service.depositRequired {
      ChargingKeepsOnFailure(s.work, t, req.appt, req.record, net.charge, net.down);
      error := ChargeDeposit(s, t, req.appt, req.record, net.charge, net.down);
    } else if company.autoConfirm {
      ConfirmingKeepsOnFailure(s.work, t, req.appt, net.down);
      error := ConfirmAppointment(s, t, req.appt, net.down, s.work);
    } else {
      error := None;
    }
    if error.None? {
      s.SetTenantContext(t);
    }
  }

  lemma ChargingKeepsOnFailure(db: Db, t: Id, appt: Id, id: Id, charge: Option<ChargeStatus>, down: set<Log>)
    ensures ChargingOf(db, t, appt, id, charge, down).error.Some? ==> ChargingOf(db, t, appt, id, charge, down).db == db
  {
  }

  lemma ConfirmingKeepsOnFailure(db: Db, t: Id, id: Id, down: set<Log>)
    ensures Confirming(db, t, id, down).error.Some? ==> Confirming(db, t, id, down).db == db
    ensures Confirming(db, t, id, down).error.None? ==> Confirming(db, t, id, down) == Confirm(db, t, id)
  {
  }

  /**
   The whole booking: every commit inside it drops the tenant setting, and it is
   set again before the next statement on tenant rows.
   */
  method Book(s: Session, t: Id, req: BookingRequest, net: Answers) returns (error: Option<Error>)
    requires s.Scoped(t) && s.Committed(s.work) && PaymentsOk(s.work)
    modifies s
    ensures error == CreateBooking(old(s.work), t, req, net).error
    ensures s.store == CreateBooking(old(s.work), t, req, net).db
  {
    ghost var db := s.work;
    var found;
    error, found := PlaceBookingOn(s, t, req);
    if error.Some? {
      Runs.FailedPlacementChangesNothing(db, t, req);
      return;
    }
    ghost var placed := s.work;
    NoPaymentsYet(db, t, req);
    s.SetTenantContext(t);
    error := FollowUpOn(s, t, req, found.value.0, found.value.1, net);
    if error.Some? {
      return;
    }
    PaymentsAfterFollowUp(placed, t, found.value.1, found.value.0, req, net);
    var polled, status;
    polled, status, error := GetBookingStatus(s, t, req.appt, net);
  }

  /** What the status page finds after the second unit: the record just charged, or no payment. */
  lemma PaymentsAfterFollowUp(db: Db, t: Id, service: Service, company: Company, req: BookingRequest, net: Answers)
    requires PaymentsOf(db, t, req.appt) == {} && FindAppt(db, t, req.appt).Some?
    requires FollowUp(db, t, service, company, req, net).error.None?
    ensures var after := FollowUp(db, t, service, company, req, net).db;
            PaymentsOf(after, t, req.appt) == (if service.depositRequired then {req.record} else {}) &&
                FindAppt(after, t, req.appt).Some?
  {
    if service.depositRequired {
      OnlyPayment(db, t, req.appt, req.record, net.charge);
    } else if company.autoConfirm {
      ConfirmAddsNoPayment(db, t, req.appt);
    }
  }

  lemma ConfirmAddsNoPayment(db: Db, t: Id, id: Id)
    requires Confirm(db, t, id).error.None?
    ensures PaymentsOf(Confirm(db, t, id).db, t, id) == PaymentsOf(db, t, id)
    ensures FindAppt(Confirm(db, t, id).db, t, id).Some?
  {
  }

  /** A new appointment has no payments. */
  lemma NoPaymentsYet(db: Db, t: Id, req: BookingRequest)
    requires PlaceBooking(db, t, req).error.None? && PaymentsOk(db)
    ensures PaymentsOf(PlaceBooking(db, t, req).db, t, req.appt) == {}
    ensures FindAppt(PlaceBooking(db, t, req).db, t, req.appt).Some?
    ensures PlaceBooking(db, t, req).db.catalog == db.catalog
  {
    Failures.PlacedIsPending(db, t, req);
    PaymentRuns.PlacementKeepsPayments(db, t, req);
    assert forall id :: id in db.payments ==> PaymentOk(db, db.payments[id]);
  }

  /** After its charge it has that one. */
  lemma OnlyPayment(db: Db, t: Id, appt: Id, id: Id, charge: Option<ChargeStatus>)
    requires CreateDepositCharge(db, t, appt, id, charge).error.None? && PaymentsOf(db, t, appt) == {}
    ensures PaymentsOf(CreateDepositCharge(db, t, appt, id, charge).db, t, appt) == {id}
    ensures FindAppt(CreateDepositCharge(db, t, appt, id, charge).db, t, appt).Some?
  {
    var record := PaymentRuns.ChargeSettles(db, t, appt, id, charge);
    var out := CreateDepositCharge(db, t, appt, id, charge).db;
    Runs.ChargedAppointmentStays(db, t, appt, id, charge);
    ConfirmIgnoresPayments(db, db.payments[id := record], t, appt);
    assert out.payments == db.payments[id := record];
    assert forall p :: p in db.payments ==> p !in PaymentsOf(db, t, appt);
  }

  // ----- reminders

  /** The due rows of one reminder type with the data the query loads. */
  method ListDue(s: Session, t: Id, kind: Kind, now: int) returns (rows: map<Id, Appt>)
    requires s.tenant.Some? && Guarded(kind)
    ensures rows == if s.Scoped(t) then map id | id in DueRows(s.work, t, kind, now) :: s.work.appts[id] else map[]
  {
    var seen := s.View();
    rows := map id | id in DueRows(seen, t, kind, now) :: seen.appts[id];
    if s.Scoped(t) {
      assert DueRows(seen, t, kind, now) == DueRows(s.work, t, kind, now);
    }
  }

  /**
   One tick for one tenant: for each reminder type all due rows, in the order the
   query returns them, and one commit.
   */
  method ScanTenant(db: Db, t: Id, now: int, down: set<Log>) returns (after: Db, error: Option<Error>)
    ensures Outcome(after, error) == Delivered(db, Done(Scan(db, t, now)), down)
  {
    Reminders.ScanSucceedsExactlyWhenSent(db, t, now, down);
    Reminders.OtherKindIsBlind(db, t, now);
    var s := new Session(db);
    s.SetTenantContext(t);
    error := RemindAll(s, t, Reminder24h, now, down);
    if error.None? {
      error := RemindAll(s, t, Reminder2h, now, down);
    }
    if error.Some? {
      return db, error;
    }
    var ok := s.Commit();
    after := s.store;
  }

  /** The scan has sent the reminders of the rows done, and nothing else. */
  ghost predicate SentSoFar(now: Db, before: Db, t: Id, kind: Kind, done: set<Id>, down: set<Log>) {
    && now == before.(logs := before.logs + multiset(RemindersFor(before, t, kind, done)))
    && RemindersFor(before, t, kind, done) !! down
  }

  /** One due row; before is the state the scan found, done the rows it has dealt with. */
  method RemindOne(s: Session, t: Id, kind: Kind, id: Id, row: Appt, down: set<Log>, ghost before: Db,
                   ghost done: set<Id>)
    returns (error: Option<Error>)
    requires s.Scoped(t) && s.pending == [] && Guarded(kind)
    requires id in before.appts && before.appts[id] == row && id !in done
    requires SentSoFar(s.work, before, t, kind, done, down)
    modifies s`work, s`pending
    ensures error.None? ==> SentSoFar(s.work, before, t, kind, done + {id}, down)
    ensures error.Some? ==> error == Some(Unsent) && !(RemindersFor(before, t, kind, {id}) !! down)
    ensures s.pending == []
  {
    ghost var mid := s.work;
    GuardSeesOwnRowOnly(before, t, kind, RemindersFor(before, t, kind, done), id);
    OneMoreReminder(before, t, kind, done, id);
    OneMoreReminder(before, t, kind, {}, id);
    assert {} + {id} == {id};
    error := SendNotification(s, t, Some(id), row.client, kind, down);
    if error.None? {
      RemindersGrow(before, t, kind, done, id, mid, s.work);
    } else {
      assert Log(t, Some(id), row.client, kind) in RemindersFor(before, t, kind, {id});
    }
  }

  lemma NothingSentYet(before: Db, t: Id, kind: Kind, down: set<Log>)
    ensures SentSoFar(before, before, t, kind, {}, down)
  {
    assert RemindersFor(before, t, kind, {}) == {};
  }

  lemma AllDueSent(now: Db, before: Db, t: Id, kind: Kind, time: int, down: set<Log>)
    requires Guarded(kind) && SentSoFar(now, before, t, kind, DueRows(before, t, kind, time), down)
    ensures now == Remind(before, t, kind, time) && NewReminders(before, t, kind, time) !! down
  {
    DueRowsGetReminders(before, t, kind, time);
  }

  method RemindAll(s: Session, t: Id, kind: Kind, now: int, down: set<Log>) returns (error: Option<Error>)
    requires s.Scoped(t) && s.pending == [] && Guarded(kind)
    modifies s`work, s`pending
    ensures error == if NewReminders(old(s.work), t, kind, now) !! down then None else Some(Unsent)
    ensures error.None? ==> s.work == Remind(old(s.work), t, kind, now) && s.pending == []
  {
    ghost var before := s.work;
    var rows := ListDue(s, t, kind, now);
    assert rows.Keys == DueRows(before, t, kind, now);
    error := RemindRows(s, t, kind, rows, down);
    if error.None? {
      AllDueSent(s.work, before, t, kind, now, down);
    } else {
      SomeReminderLost(before, t, kind, now, down);
    }
  }

  /** The loop over the due rows. */
  method RemindRows(s: Session, t: Id, kind: Kind, rows: map<Id, Appt>, down: set<Log>) returns (error: Option<Error>)
    requires s.Scoped(t) && s.pending == [] && Guarded(kind)
    requires forall id :: id in rows ==> id in s.work.appts && s.work.appts[id] == rows[id]
    modifies s`work, s`pending
    ensures error.None? ==> SentSoFar(s.work, old(s.work), t, kind, rows.Keys, down) && s.pending == []
    ensures error.Some? ==>
              error == Some(Unsent) && exists id ::
                  id in rows.Keys && !(RemindersFor(old(s.work), t, kind, {id}) !! down)
  {
    ghost var before, done: set<Id> := s.work, {};
    NothingSentYet(before, t, kind, down);
    var rest := rows.Keys;
    while rest != {}
      invariant done !! rest && done + rest == rows.Keys && s.pending == []
      invariant SentSoFar(s.work, before, t, kind, done, down)
      decreases rest
    {
      var id :| id in rest;
      error := RemindOne(s, t, kind, id, rows[id], down, before, done);
      if error.Some? {
        return;
      }
      done, rest := done + {id}, rest - {id};
    }
    assert done == rows.Keys;
    return None;
  }

  lemma SomeReminderLost(db: Db, t: Id, kind: Kind, now: int, down: set<Log>)
    requires Guarded(kind)
    requires exists id :: id in DueRows(db, t, kind, now) && !(RemindersFor(db, t, kind, {id}) !! down)
    ensures !(NewReminders(db, t, kind, now) !! down)
  {
    var id :| id in DueRows(db, t, kind, now) && !(RemindersFor(db, t, kind, {id}) !! down);
    DueReminderIsNew(db, t, kind, now, id);
  }

  lemma DueReminderIsNew(db: Db, t: Id, kind: Kind, now: int, id: Id)
    requires Guarded(kind) && id in DueRows(db, t, kind, now)
    ensures RemindersFor(db, t, kind, {id}) <= NewReminders(db, t, kind, now)
  {
  }

  function DueRows(db: Db, t: Id, kind: Kind, now: int): set<Id>
    requires Guarded(kind)
  {
    set id | id in db.appts && Due(db.appts[id], t, kind, now)
  }

  lemma DueRowsGetReminders(db: Db, t: Id, kind: Kind, now: int)
    requires Guarded(kind)
    ensures RemindersFor(db, t, kind, DueRows(db, t, kind, now)) == NewReminders(db, t, kind, now)
  {
  }

  /** The logs of the rows among ids that had no such reminder before. */
  function RemindersFor(db: Db, t: Id, kind: Kind, ids: set<Id>): set<Log> {
    set id | id in ids && id in db.appts && !AlreadySent(db.logs, t, id, kind) ::
        Log(t, Some(id), db.appts[id].client, kind)
  }

  /** Reminders sent to other rows do not trip the guard for this one. */
  lemma GuardSeesOwnRowOnly(db: Db, t: Id, kind: Kind, sent: set<Log>, id: Id)
    requires forall log :: log in sent ==> log.appointment != Some(id)
    ensures AlreadySent(db.logs + multiset(sent), t, id, kind) <==> AlreadySent(db.logs, t, id, kind)
  {
    var all := db.logs + multiset(sent);
    if log :| log in all && log.tenant == t && log.appointment == Some(id) && log.kind == kind {
      assert log in db.logs;
    }
    if log :| log in db.logs && log.tenant == t && log.appointment == Some(id) && log.kind == kind {
      assert log in all;
    }
  }

  lemma OneMoreReminder(db: Db, t: Id, kind: Kind, done: set<Id>, id: Id)
    requires id in db.appts && id !in done
    ensures var one := Log(t, Some(id), db.appts[id].client, kind);
            var sent := RemindersFor(db, t, kind, done);
            && one !in sent
            && RemindersFor(db, t, kind, done + {id}) == if AlreadySent(db.logs, t, id, kind) then sent
                 else sent + {one}
  {
  }

  lemma AddToLogs(logs: multiset<Log>, sent: set<Log>, one: Log)
    requires one !in sent
    ensures logs + multiset(sent) + multiset{one} == logs + multiset(sent + {one})
  {
  }

  /** Sending one more reminder adds its log unless that reminder was sent before the scan. */
  lemma RemindersGrow(db: Db, t: Id, kind: Kind, done: set<Id>, id: Id, mid: Db, after: Db)
    requires Guarded(kind) && id in db.appts && id !in done
    requires mid == db.(logs := db.logs + multiset(RemindersFor(db, t, kind, done)))
    requires after == Send(mid, t, Some(id), db.appts[id].client, kind)
    ensures after == db.(logs := db.logs + multiset(RemindersFor(db, t, kind, done + {id})))
  {
    var sent := RemindersFor(db, t, kind, done);
    GuardSeesOwnRowOnly(db, t, kind, sent, id);
    OneMoreReminder(db, t, kind, done, id);
    AddToLogs(db.logs, sent, Log(t, Some(id), db.appts[id].client, kind));
  }
}
